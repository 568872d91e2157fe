/**
 * `json.dumps` applied to a list of strings, as `_update_execution_input_for_stack`
 * uses it (datajob/sagemaker/__init__.py): `[` + the items joined by `", "` + `]`,
 * each item in double quotes with `"` and `\` escaped by a backslash.
 *
 * `Loads` reads that format back; it is the partner against which the
 * serialiser is proved: every list survives the round trip.
 */
module Json {
  import opened Wrappers

  /**
   * Space through tilde: the characters `json.dumps` under `ensure_ascii` writes as
   * themselves, except `"` and `\`, which it writes as two-character backslash escapes.
   */
  predicate IsPrintableAscii(c: char) {
    ' ' <= c <= '~'
  }

  predicate AllPrintableAscii(s: string) {
    forall i :: 0 <= i < |s| ==> IsPrintableAscii(s[i])
  }

  function EscapeChar(c: char): (r: string)
    ensures 1 <= |r| <= 2
    ensures IsPrintableAscii(c) ==> AllPrintableAscii(r)
  {
    if c == '"' then ['\\', '"']
    else if c == '\\' then ['\\', '\\']
    else [c]
  }

  /** The body of a JSON string literal. */
  function Escape(s: string): (r: string)
    ensures |s| <= |r| <= 2 * |s|
  {
    if s == [] then [] else EscapeChar(s[0]) + Escape(s[1..])
  }

  function Quote(s: string): (r: string)
  {
    "\"" + Escape(s) + "\""
  }

  /** The items of the array, separated by `", "`. */
  function JoinQuoted(items: seq<string>): (r: string)
  {
    if items == [] then ""
    else if |items| == 1 then Quote(items[0])
    else Quote(items[0]) + ", " + JoinQuoted(items[1..])
  }

  /** `json.dumps(items)` for a list of strings, with the default separators. */
  function Dumps(items: seq<string>): (r: string)
    ensures 2 <= |r| && r[0] == '[' && r[|r| - 1] == ']'
    ensures r == "[]" <==> items == []
  {
    "[" + JoinQuoted(items) + "]"
  }

  /**
   * Reads the body of a string literal, up to and including its closing quote.
   * Returns the decoded text and what follows the closing quote.
   */
  function UnescapeBody(s: string): (r: Option<(string, string)>)
    ensures r.Some? ==> |r.value.1| < |s|
    decreases |s|
  {
    if s == [] then None
    else if s[0] == '"' then Some(([], s[1..]))
    else if s[0] == '\\' then
      if |s| < 2 || (s[1] != '"' && s[1] != '\\') then None
      else
        match UnescapeBody(s[2..])
        case None => None
        case Some((v, rest)) => Some(([s[1]] + v, rest))
    else
      match UnescapeBody(s[1..])
      case None => None
      case Some((v, rest)) => Some(([s[0]] + v, rest))
  }

  /** Reads one or more quoted items, separated by `", "`, ending in `]`. */
  function ParseItems(s: string): (r: Option<seq<string>>)
    ensures r.Some? ==> |r.value| >= 1
    decreases |s|
  {
    if s == [] || s[0] != '"' then None
    else
      var item := UnescapeBody(s[1..]);
      if item.None? then None
      else ParseAfterItem(item.value.0, item.value.1)
  }

  /** What follows a decoded item `v`: the closing `]`, or `", "` and more items. */
  function ParseAfterItem(v: string, rest: string): (r: Option<seq<string>>)
    ensures r.Some? ==> |r.value| >= 1 && r.value[0] == v
    decreases |rest|, 0
  {
    if rest == "]" then Some([v])
    else if 2 <= |rest| && rest[0] == ',' && rest[1] == ' ' then
      var more := ParseItems(rest[2..]);
      if more.None? then None else Some([v] + more.value)
    else None
  }

  /** Reads a JSON array of strings in the layout `Dumps` writes. */
  function Loads(s: string): (r: Option<seq<string>>)
  {
    if s == [] || s[0] != '[' then None
    else if s[1..] == "]" then Some([])
    else ParseItems(s[1..])
  }

  lemma {:induction false} UnescapeEscape(k: string, tail: string)
    ensures UnescapeBody(Escape(k) + "\"" + tail) == Some((k, tail))
  {
    if k == [] {
      assert Escape(k) + "\"" + tail == "\"" + tail;
    } else {
      UnescapeEscape(k[1..], tail);
      assert Escape(k) + "\"" + tail == EscapeChar(k[0]) + (Escape(k[1..]) + "\"" + tail);
      assert [k[0]] + k[1..] == k;
    }
  }

  /** A quoted item followed by `rest`: the item is read, then `rest` decides what follows. */
  lemma ParseQuotedItem(k: string, rest: string)
    ensures ParseItems(Quote(k) + rest) == ParseAfterItem(k, rest)
  {
    var s := Quote(k) + rest;
    UnescapeEscape(k, rest);
    assert s == "\"" + (Escape(k) + "\"" + rest);
    assert s[1..] == Escape(k) + "\"" + rest;
  }

  lemma {:induction false} ParseJoinQuoted(items: seq<string>)
    requires items != []
    ensures ParseItems(JoinQuoted(items) + "]") == Some(items)
  {
    var k := items[0];
    if |items| == 1 {
      assert JoinQuoted(items) + "]" == Quote(k) + "]";
      ParseQuotedItem(k, "]");
      assert items == [k];
    } else {
      var more := JoinQuoted(items[1..]) + "]";
      var tail := ", " + more;
      assert JoinQuoted(items) == Quote(k) + ", " + JoinQuoted(items[1..]);
      assert JoinQuoted(items) + "]" == Quote(k) + tail;
      ParseQuotedItem(k, tail);
      ParseJoinQuoted(items[1..]);
      assert tail != "]" && tail[0] == ',' && tail[1] == ' ' && tail[2..] == more;
      assert ParseAfterItem(k, tail) == Some([k] + items[1..]);
      assert [k] + items[1..] == items;
    }
  }

  /** Every list of strings is read back from its serialisation. */
  lemma LoadsDumps(items: seq<string>)
    ensures Loads(Dumps(items)) == Some(items)
  {
    var s := Dumps(items);
    if items != [] {
      ParseJoinQuoted(items);
      assert s[1..] == JoinQuoted(items) + "]";
      assert s[1..] != "]" by {
        assert s[1] == '"';
      }
    }
  }

  /** Different lists publish different text. */
  lemma DumpsInjective(a: seq<string>, b: seq<string>)
    ensures Dumps(a) == Dumps(b) <==> a == b
  {
    if Dumps(a) == Dumps(b) {
      LoadsDumps(a);
      LoadsDumps(b);
    }
  }

  lemma {:induction false} EscapePrintable(s: string)
    requires AllPrintableAscii(s)
    ensures AllPrintableAscii(Escape(s))
  {
    if s != [] {
      EscapePrintable(s[1..]);
      assert IsPrintableAscii(s[0]);
    }
  }

  lemma {:induction false} JoinQuotedPrintable(items: seq<string>)
    requires forall i :: 0 <= i < |items| ==> AllPrintableAscii(items[i])
    ensures AllPrintableAscii(JoinQuoted(items))
  {
    if items != [] {
      EscapePrintable(items[0]);
      if |items| > 1 {
        JoinQuotedPrintable(items[1..]);
      }
    }
  }

  /** On printable-ASCII items the output stays printable ASCII, as `ensure_ascii` promises. */
  lemma DumpsPrintable(items: seq<string>)
    requires forall i :: 0 <= i < |items| ==> AllPrintableAscii(items[i])
    ensures AllPrintableAscii(Dumps(items))
  {
    JoinQuotedPrintable(items);
  }
}
