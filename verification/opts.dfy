/** Command-line options of the updater and the splitting of the
    comma-separated record option into record names. */
module Options {

  /** The parsed options. The token and the debug flag are carried but play
      no part in the modelled logic. */
  datatype Opts = Opts(
    token: string,
    zone: string,
    records: string,
    debug: bool,
    daemon: bool,
    cron: string)

  /** Number of separator characters in `s`. */
  function CommaCount(s: string): nat
  {
    if |s| == 0 then 0
    else (if s[0] == ',' then 1 else 0) + CommaCount(s[1..])
  }

  /** Joins names with "," between consecutive ones. */
  function JoinComma(parts: seq<string>): string
    requires |parts| >= 1
  {
    if |parts| == 1 then parts[0] else parts[0] + "," + JoinComma(parts[1..])
  }

  /** The pieces of `s` between separators, in order, with nothing trimmed
      or dropped: "" gives [""], and "a,,b" gives ["a", "", "b"]. */
  function Split(s: string): (parts: seq<string>)
    ensures |parts| == CommaCount(s) + 1
    ensures forall i :: 0 <= i < |parts| ==> ',' !in parts[i]
    ensures JoinComma(parts) == s
  {
    if |s| == 0 then [""]
    else
      var rest := Split(s[1..]);
      if s[0] == ',' then
        assert s == "," + s[1..];
        [""] + rest
      else
        var parts := [[s[0]] + rest[0]] + rest[1..];
        assert parts[1..] == rest[1..];
        assert s == [s[0]] + s[1..];
        parts
  }

  /** The record names the updater works on. */
  function RecordNameList(opts: Opts): (names: seq<string>)
    ensures |names| >= 1
    ensures |names| == CommaCount(opts.records) + 1
    ensures JoinComma(names) == opts.records
  {
    Split(opts.records)
  }

  /** A comma-free prefix stays glued to the first piece of what follows. */
  lemma {:induction false} SplitPrefix(w: string, t: string)
    requires ',' !in w
    ensures Split(w + t) == [w + Split(t)[0]] + Split(t)[1..]
    decreases |w|
  {
    if |w| > 0 {
      assert (w + t)[0] == w[0];
      assert (w + t)[1..] == w[1..] + t;
      assert ',' !in w[1..] by {
        forall k | 0 <= k < |w[1..]| ensures w[1..][k] != ',' {
          assert w[1..][k] == w[k + 1];
        }
      }
      SplitPrefix(w[1..], t);
      assert [w[0]] + (w[1..] + Split(t)[0]) == w + Split(t)[0];
    }
    else {
      assert w + t == t;
      assert w + Split(t)[0] == Split(t)[0];
      assert Split(t) == [Split(t)[0]] + Split(t)[1..];
    }
  }

  /** Splitting undoes joining: comma-free names joined with "," split back
      into exactly the same names, empty ones and duplicates included. */
  lemma {:induction false} SplitJoin(parts: seq<string>)
    requires |parts| >= 1
    requires forall i :: 0 <= i < |parts| ==> ',' !in parts[i]
    ensures Split(JoinComma(parts)) == parts
  {
    if |parts| == 1 {
      SplitPrefix(parts[0], "");
      assert parts[0] + "" == parts[0];
    } else {
      var tail := JoinComma(parts[1..]);
      SplitJoin(parts[1..]);
      assert parts[0] + "," + tail == parts[0] + ("," + tail);
      SplitPrefix(parts[0], "," + tail);
      assert ("," + tail)[0] == ',' && ("," + tail)[1..] == tail;
      assert Split("," + tail) == [""] + Split(tail);
      assert parts[0] + "" == parts[0];
      assert parts == [parts[0]] + parts[1..];
    }
  }

  /** Split is characterised by its inverse JoinComma: its result is the
      one and only list of comma-free names that joins back to the input. */
  lemma SplitCharacterised(s: string, parts: seq<string>)
    ensures Split(s) == parts <==>
      && |parts| >= 1
      && (forall i :: 0 <= i < |parts| ==> ',' !in parts[i])
      && JoinComma(parts) == s
  {
    if && |parts| >= 1
       && (forall i :: 0 <= i < |parts| ==> ',' !in parts[i])
       && JoinComma(parts) == s
    {
      SplitJoin(parts);
    }
  }

  /** Worked cases: no name is trimmed, dropped or reordered. */
  lemma SplitKeepsEverything()
    ensures Split("a,,b") == ["a", "", "b"]
    ensures Split(" a.x.com, a.x.com") == [" a.x.com", " a.x.com"]
  {
    assert JoinComma(["b"]) == "b";
    assert JoinComma(["", "b"]) == ",b";
    assert JoinComma(["a", "", "b"]) == "a,,b";
    SplitJoin(["a", "", "b"]);
    assert JoinComma([" a.x.com"]) == " a.x.com";
    assert JoinComma([" a.x.com", " a.x.com"]) == " a.x.com, a.x.com";
    SplitJoin([" a.x.com", " a.x.com"]);
  }
}
