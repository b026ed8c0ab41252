/** Comma-separated text as the V4 ADS driver builds it for the SD card and
    the serial monitor: every field but the last is followed by a comma. */
module CommaText {

  /** The text contains no separator, so it reads back as one field. */
  predicate Plain(s: string)
  {
    ',' !in s
  }

  /** Each field followed by a comma, as a run of `out_str += f + ","`. */
  function Terminated(fields: seq<string>): (s: string)
    ensures |s| >= |fields|
  {
    if fields == [] then ""
    else Terminated(fields[..|fields| - 1]) + (fields[|fields| - 1] + ",")
  }

  /** The fields separated by commas, with no comma after the last one. */
  function Join(fields: seq<string>): string
    requires fields != []
  {
    Terminated(fields[..|fields| - 1]) + fields[|fields| - 1]
  }

  /** The fields of a text: the pieces between its commas. */
  function Split(s: string): (fields: seq<string>)
    ensures fields != []
  {
    if s == [] then [""]
    else
      var init := Split(s[..|s| - 1]);
      if s[|s| - 1] == ',' then init + [""]
      else init[..|init| - 1] + [init[|init| - 1] + [s[|s| - 1]]]
  }

  lemma TerminatedSnoc(fields: seq<string>, f: string)
    ensures Terminated(fields + [f]) == Terminated(fields) + (f + ",")
  {
    assert (fields + [f])[..|fields|] == fields;
  }

  /** Appending text without a comma extends the last field. */
  lemma {:induction false} SplitPlainSuffix(s: string, t: string)
    requires Plain(t)
    ensures Split(s + t) == Split(s)[..|Split(s)| - 1] + [Split(s)[|Split(s)| - 1] + t]
    decreases |t|
  {
    if t == [] {
      assert s + t == s;
      assert Split(s)[|Split(s)| - 1] + t == Split(s)[|Split(s)| - 1];
    } else {
      var u := t[..|t| - 1];
      var c := t[|t| - 1];
      assert t == u + [c];
      assert (s + t)[..|s + t| - 1] == s + u;
      assert c != ',' by { assert t[|t| - 1] in t; }
      SplitPlainSuffix(s, u);
      var init := Split(s);
      var last := init[|init| - 1];
      assert last + u + [c] == last + t;
    }
  }

  /** A comma starts a new, empty field. */
  lemma SplitComma(s: string)
    ensures Split(s + ",") == Split(s) + [""]
  {
    assert (s + ",")[..|s|] == s;
  }

  /** The terminated text of comma-free fields splits into those fields and
      one empty field after the final comma. */
  lemma {:induction false} SplitTerminated(fields: seq<string>)
    requires forall k :: 0 <= k < |fields| ==> Plain(fields[k])
    ensures Split(Terminated(fields)) == fields + [""]
  {
    if fields != [] {
      var init := fields[..|fields| - 1];
      var f := fields[|fields| - 1];
      SplitTerminated(init);
      SplitPlainSuffix(Terminated(init), f);
      assert Terminated(init) + (f + ",") == (Terminated(init) + f) + ",";
      SplitComma(Terminated(init) + f);
      assert (init + [""])[..|init|] == init;
      assert "" + f == f;
      assert Split(Terminated(init) + f) == init + [f];
      assert fields == init + [f];
    }
  }

  /** Joining comma-free fields and splitting the text gives the fields back:
      the text has exactly one field per value. */
  lemma SplitJoin(fields: seq<string>)
    requires fields != []
    requires forall k :: 0 <= k < |fields| ==> Plain(fields[k])
    ensures Split(Join(fields)) == fields
  {
    var init := fields[..|fields| - 1];
    var f := fields[|fields| - 1];
    SplitTerminated(init);
    SplitPlainSuffix(Terminated(init), f);
    assert (init + [""])[..|init|] == init;
    assert "" + f == f;
    assert fields == init + [f];
  }
}
