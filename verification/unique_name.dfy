/**
 * `DataJobSagemakerBase.generate_unique_name` (datajob/sagemaker/__init__.py):
 * append the rendered process timestamp to a name, trimming the name from
 * its end when the two together exceed a character budget.
 *
 * The timestamp is captured once per process and rendered with `strftime`;
 * here the rendered text is the parameter `currentDate`.
 */
module UniqueName {

  /** `DataJobSagemakerBase.MAX_CHARS`, the default budget. */
  const MAX_CHARS: int := 63

  /** Python's `s[:stop]`: a negative stop counts from the end and is clamped at 0. */
  function SliceTo(s: string, stop: int): (r: string)
    ensures r <= s
    ensures 0 <= stop ==> |r| == if stop < |s| then stop else |s|
    ensures stop < 0 ==> |r| == if -stop < |s| then |s| + stop else 0
  {
    if 0 <= stop then
      if stop < |s| then s[..stop] else s
    else if |s| + stop < 0 then
      []
    else
      s[..|s| + stop]
  }

  /** The function as written: the budget test `difference < 0` does not count the hyphen. */
  function GenerateUniqueName(currentDate: string, name: string, maxChars: int := MAX_CHARS): (r: string)
    ensures |currentDate| < |r| && r[|r| - |currentDate| - 1..] == "-" + currentDate
    ensures r[..|r| - |currentDate| - 1] <= name
  {
    var totalLength := |currentDate| + |name|;
    var difference := maxChars - totalLength;
    var kept := if difference < 0 then SliceTo(name, difference - 1) else name;
    kept + "-" + currentDate
  }

  /** Within the budget (hyphen not counted) the name is kept whole. */
  lemma WithinBudgetKeepsName(currentDate: string, name: string, maxChars: int)
    requires |name| + |currentDate| <= maxChars
    ensures GenerateUniqueName(currentDate, name, maxChars) == name + "-" + currentDate
  {
  }

  /** Over the budget, `len(name) + len(date) - maxChars + 1` characters are cut from the end of the name. */
  lemma OverBudgetTrimsName(currentDate: string, name: string, maxChars: int)
    requires |name| + |currentDate| > maxChars
    ensures var removed := |name| + |currentDate| - maxChars + 1;
            GenerateUniqueName(currentDate, name, maxChars)
            == (if removed < |name| then name[..|name| - removed] else []) + "-" + currentDate
  {
  }

  /** Over the budget, and with room for hyphen and date, the result is exactly maxChars long. */
  lemma TrimmedNameFillsBudget(currentDate: string, name: string, maxChars: int)
    requires |name| + |currentDate| > maxChars
    requires |currentDate| + 1 <= maxChars
    ensures |GenerateUniqueName(currentDate, name, maxChars)| == maxChars
  {
    OverBudgetTrimsName(currentDate, name, maxChars);
  }

  /** A non-empty name survives whole exactly when it is within the budget. */
  lemma KeepsNameIffWithinBudget(currentDate: string, name: string, maxChars: int)
    requires name != []
    ensures GenerateUniqueName(currentDate, name, maxChars) == name + "-" + currentDate
            <==> |name| + |currentDate| <= maxChars
  {
    var r := GenerateUniqueName(currentDate, name, maxChars);
    if |name| + |currentDate| > maxChars {
      OverBudgetTrimsName(currentDate, name, maxChars);
      assert |r| < |name + "-" + currentDate|;
    }
  }

  /** The off-by-one: a name and date that exactly fill the budget give maxChars + 1 characters. */
  lemma BoundaryOverflowsBudget(currentDate: string, name: string, maxChars: int)
    requires |name| + |currentDate| == maxChars
    ensures |GenerateUniqueName(currentDate, name, maxChars)| == maxChars + 1
  {
    WithinBudgetKeepsName(currentDate, name, maxChars);
  }

  /** A concrete instance: "my-job" and a 15-character timestamp under a budget of 21. */
  lemma BoundaryCounterexample()
    ensures GenerateUniqueName("20230101T000000", "my-job", 21) == "my-job-20230101T000000"
    ensures |GenerateUniqueName("20230101T000000", "my-job", 21)| == 22
  {
    WithinBudgetKeepsName("20230101T000000", "my-job", 21);
  }

  /** The only budget the function as written can exceed, given room for hyphen and date, is at the boundary. */
  lemma ExceedsBudgetOnlyAtBoundary(currentDate: string, name: string, maxChars: int)
    requires |currentDate| + 1 <= maxChars
    ensures |GenerateUniqueName(currentDate, name, maxChars)| > maxChars
            <==> |name| + |currentDate| == maxChars
  {
    if |name| + |currentDate| > maxChars {
      TrimmedNameFillsBudget(currentDate, name, maxChars);
    } else {
      WithinBudgetKeepsName(currentDate, name, maxChars);
    }
  }

  /** The evident intent: the hyphen counts against the budget. */
  function GenerateUniqueNameWithinBudget(currentDate: string, name: string, maxChars: int := MAX_CHARS): (r: string)
    ensures |currentDate| < |r| && r[|r| - |currentDate| - 1..] == "-" + currentDate
    ensures r[..|r| - |currentDate| - 1] <= name
    ensures |currentDate| + 1 <= maxChars ==> |r| <= maxChars
  {
    var totalLength := |currentDate| + 1 + |name|;
    var difference := maxChars - totalLength;
    var kept := if difference < 0 then SliceTo(name, difference) else name;
    kept + "-" + currentDate
  }

  /** The corrected function keeps the longest prefix of the name that fits. */
  lemma WithinBudgetKeepsLongestPrefix(currentDate: string, name: string, maxChars: int)
    requires |currentDate| + 1 <= maxChars
    ensures var r := GenerateUniqueNameWithinBudget(currentDate, name, maxChars);
            |r| == if |name| + |currentDate| + 1 <= maxChars then |name| + |currentDate| + 1 else maxChars
  {
  }

  /** Away from the boundary the corrected and the original function agree. */
  lemma WithinBudgetAgreesOffBoundary(currentDate: string, name: string, maxChars: int)
    requires |name| + |currentDate| != maxChars
    ensures GenerateUniqueNameWithinBudget(currentDate, name, maxChars)
            == GenerateUniqueName(currentDate, name, maxChars)
  {
  }
}
