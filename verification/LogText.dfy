/**
 The snapshot file of the log ring: one encoded entry a line, oldest first, and
 a reader that looks at no more than its last bytes. JSON itself is a parameter:
 a pair of functions that undo each other, line by line.
 */
module LogText {
  import opened Wrappers

  datatype Entry = Entry(raw: string, masked: string) {
    function Size(): nat {
      |raw| + |masked|
    }
  }

  /** Longer lines of a snapshot are not turned into entries: 1 MiB. */
  const MAX_LOAD_LINE := 0x10_0000

  ghost predicate Codec(enc: Entry -> string, dec: string -> Option<Entry>) {
    forall e :: dec(enc(e)) == Some(e) && enc(e) != "" && enc(e)[0] == '{' && '\n' !in enc(e)
  }

  // -------------------------------------------------------------- writing

  function FileText(enc: Entry -> string, es: seq<Entry>): string {
    if es == [] then "" else enc(es[0]) + "\n" + FileText(enc, es[1..])
  }

  lemma {:induction false} FileTextConcat(enc: Entry -> string, a: seq<Entry>, b: seq<Entry>)
    ensures FileText(enc, a + b) == FileText(enc, a) + FileText(enc, b)
  {
    if a == [] {
      assert a + b == b;
    } else {
      assert (a + b)[1..] == a[1..] + b;
      FileTextConcat(enc, a[1..], b);
    }
  }

  /** Streams a snapshot, one encoded line at a time. */
  method WriteLines(enc: Entry -> string, es: seq<Entry>) returns (text: string)
    ensures text == FileText(enc, es)
  {
    text := "";
    for i := 0 to |es|
      invariant text == FileText(enc, es[..i])
    {
      FileTextConcat(enc, es[..i], [es[i]]);
      assert es[..i+1] == es[..i] + [es[i]];
      assert FileText(enc, [es[i]]) == enc(es[i]) + "\n";
      text := text + (enc(es[i]) + "\n");
    }
    assert es[..|es|] == es;
  }

  // -------------------------------------------------------------- reading

  /** Everything after the first newline; nothing without one. */
  function AfterNewline(b: string): (r: string)
    ensures |r| <= |b|
  {
    if b == "" then "" else if b[0] == '\n' then b[1..] else AfterNewline(b[1..])
  }

  /** The last `cap` bytes, without the line they may start in the middle of. */
  function TailRead(file: string, cap: nat): string {
    if |file| > cap then AfterNewline(file[|file| - cap..]) else file
  }

  function TrimNewlines(b: string): string {
    if b != "" && b[|b|-1] == '\n' then TrimNewlines(b[..|b|-1]) else b
  }

  /** What lies between the newlines: never fewer than one piece. */
  function Split(b: string): (r: seq<string>)
    ensures |r| >= 1
  {
    if b == "" then [""]
    else if b[0] == '\n' then [""] + Split(b[1..])
    else Glue(b[0], Split(b[1..]))
  }

  function Glue(c: char, r: seq<string>): (g: seq<string>)
    requires |r| >= 1
    ensures |g| == |r|
  {
    [[c] + r[0]] + r[1..]
  }

  lemma GlueConcat(c: char, r: seq<string>, t: seq<string>)
    requires |r| >= 1
    ensures Glue(c, r + t) == Glue(c, r) + t
  {
    assert (r + t)[1..] == r[1..] + t;
  }

  predicate Wanted(ln: string) {
    ln != "" && |ln| <= MAX_LOAD_LINE
  }

  /** A line that is not an encoded entry is the older plain format. */
  function ParseLine(dec: string -> Option<Entry>, ln: string): Entry
    requires ln != ""
  {
    if ln[0] == '{' && dec(ln).Some? then dec(ln).value else Entry(ln, ln)
  }

  function Loaded(dec: string -> Option<Entry>, ln: string): seq<Entry> {
    if Wanted(ln) then [ParseLine(dec, ln)] else []
  }

  function ParseLines(dec: string -> Option<Entry>, lns: seq<string>): seq<Entry> {
    if lns == [] then [] else Loaded(dec, lns[0]) + ParseLines(dec, lns[1..])
  }

  /** The entries a load takes from a file. */
  function Read(dec: string -> Option<Entry>, file: string, cap: nat): seq<Entry> {
    ParseLines(dec, Split(TrimNewlines(TailRead(file, cap))))
  }

  // ---------------------------------------------------------------- laws

  lemma {:induction false} ParseConcat(dec: string -> Option<Entry>, a: seq<string>, b: seq<string>)
    ensures ParseLines(dec, a + b) == ParseLines(dec, a) + ParseLines(dec, b)
  {
    if a == [] {
      assert a + b == b;
    } else {
      assert (a + b)[1..] == a[1..] + b;
      ParseConcat(dec, a[1..], b);
      var x, y, z := Loaded(dec, a[0]), ParseLines(dec, a[1..]), ParseLines(dec, b);
      assert x + (y + z) == (x + y) + z;
    }
  }

  lemma {:induction false} SplitAtNewline(a: string, b: string)
    ensures Split(a + "\n" + b) == Split(a) + Split(b)
  {
    var all := a + "\n" + b;
    if a == "" {
      assert all[1..] == b;
    } else {
      assert all[1..] == a[1..] + "\n" + b;
      SplitAtNewline(a[1..], b);
      assert all[0] == a[0];
      if a[0] != '\n' {
        GlueConcat(a[0], Split(a[1..]), Split(b));
      }
    }
  }

  lemma {:induction false} SplitOneLine(ln: string)
    requires '\n' !in ln
    ensures Split(ln) == [ln]
  {
    if ln != "" {
      SplitOneLine(ln[1..]);
      assert [ln[0]] + ln[1..] == ln;
    }
  }

  lemma NoEntryInAnEmptyLine(dec: string -> Option<Entry>, lns: seq<string>)
    ensures ParseLines(dec, lns + [""]) == ParseLines(dec, lns)
  {
    ParseConcat(dec, lns, [""]);
    assert ParseLines(dec, [""]) == [];
  }

  /** Trailing newlines only ever add empty lines, which are skipped anyway. */
  lemma {:induction false} TrimmingLosesNothing(dec: string -> Option<Entry>, b: string)
    ensures ParseLines(dec, Split(TrimNewlines(b))) == ParseLines(dec, Split(b))
    decreases |b|
  {
    if b != "" && b[|b|-1] == '\n' {
      var a := b[..|b|-1];
      TrimmingLosesNothing(dec, a);
      assert b == a + "\n" + "";
      SplitAtNewline(a, "");
      NoEntryInAnEmptyLine(dec, Split(a));
    }
  }

  lemma {:induction false} AfterNewlineIsASuffix(b: string) returns (pre: string)
    ensures '\n' in b ==> b == pre + "\n" + AfterNewline(b) && '\n' !in pre
    ensures '\n' !in b ==> AfterNewline(b) == ""
  {
    pre := "";
    if b != "" && b[0] != '\n' {
      pre := AfterNewlineIsASuffix(b[1..]);
      pre := [b[0]] + pre;
    }
  }

  lemma OneMoreLine(dec: string -> Option<Entry>, lns: seq<string>, i: nat)
    requires i < |lns|
    ensures ParseLines(dec, lns[..i+1]) == ParseLines(dec, lns[..i]) + Loaded(dec, lns[i])
  {
    assert lns[..i+1] == lns[..i] + [lns[i]];
    ParseConcat(dec, lns[..i], [lns[i]]);
    assert ParseLines(dec, [lns[i]]) == Loaded(dec, lns[i]) + [];
  }

  lemma TailStartsOnALine(file: string, cap: nat) returns (pre: string)
    ensures TailRead(file, cap) in [file, ""] || file == pre + "\n" + TailRead(file, cap)
  {
    pre := "";
    if |file| > cap {
      var o := |file| - cap;
      var cut := AfterNewlineIsASuffix(file[o..]);
      pre := file[..o] + cut;
      if '\n' in file[o..] {
        assert file == file[..o] + file[o..];
        assert file == pre + "\n" + TailRead(file, cap);
      }
    }
  }

  /**
   Whatever bytes the file holds and wherever the bounded read cuts it, what is
   loaded are the newest of the entries of its whole lines.
   */
  lemma NothingIsFabricated(dec: string -> Option<Entry>, file: string, cap: nat)
    ensures exists k :: 0 <= k <= |ParseLines(dec, Split(file))|
                        && Read(dec, file, cap) == ParseLines(dec, Split(file))[k..]
  {
    var whole, tail := ParseLines(dec, Split(file)), TailRead(file, cap);
    TrimmingLosesNothing(dec, tail);
    var pre := TailStartsOnALine(file, cap);
    var k := |whole|;
    if tail == file {
      k := 0;
    } else if tail != "" {
      SplitAtNewline(pre, tail);
      ParseConcat(dec, Split(pre), Split(tail));
      k := |ParseLines(dec, Split(pre))|;
    }
    assert whole[k..] == Read(dec, file, cap);
  }

  /** The saved entries whose line is short enough to be read back. */
  function Short(enc: Entry -> string, es: seq<Entry>): (r: seq<Entry>)
    ensures |r| <= |es|
    ensures |r| == |es| <==> forall e :: e in es ==> |enc(e)| <= MAX_LOAD_LINE
    ensures |r| == |es| ==> r == es
  {
    if es == [] then [] else (if |enc(es[0])| <= MAX_LOAD_LINE then [es[0]] else []) + Short(enc, es[1..])
  }

  lemma {:induction false} WholeFileReadsBack(enc: Entry -> string, dec: string -> Option<Entry>, es: seq<Entry>)
    requires Codec(enc, dec)
    ensures ParseLines(dec, Split(FileText(enc, es))) == Short(enc, es)
  {
    if es != [] {
      var ln, rest := enc(es[0]), FileText(enc, es[1..]);
      SplitAtNewline(ln, rest);
      SplitOneLine(ln);
      ParseConcat(dec, [ln], Split(rest));
      WholeFileReadsBack(enc, dec, es[1..]);
      assert dec(ln) == Some(es[0]);
    }
  }

  /** How many lines of a snapshot a cut at byte `o` takes away. */
  function LinesCut(enc: Entry -> string, es: seq<Entry>, o: nat): (k: nat)
    ensures k <= |es|
  {
    if es == [] then 0
    else if o <= |enc(es[0])| then 1
    else 1 + LinesCut(enc, es[1..], o - |enc(es[0])| - 1)
  }

  lemma {:induction false} SkipPlainPrefix(a: string, b: string)
    requires '\n' !in a
    ensures AfterNewline(a + "\n" + b) == b
  {
    var all := a + "\n" + b;
    if a == "" {
      assert all[1..] == b;
    } else {
      assert all[1..] == a[1..] + "\n" + b;
      SkipPlainPrefix(a[1..], b);
    }
  }

  lemma {:induction false} CutKeepsWholeLines(enc: Entry -> string, dec: string -> Option<Entry>, es: seq<Entry>, o: nat)
    requires Codec(enc, dec) && o <= |FileText(enc, es)|
    ensures AfterNewline(FileText(enc, es)[o..]) == FileText(enc, es[LinesCut(enc, es, o)..])
  {
    if es != [] {
      var ln, rest := enc(es[0]), FileText(enc, es[1..]);
      if o <= |ln| {
        assert FileText(enc, es)[o..] == ln[o..] + "\n" + rest;
        SkipPlainPrefix(ln[o..], rest);
      } else {
        assert FileText(enc, es)[o..] == rest[o - |ln| - 1..];
        CutKeepsWholeLines(enc, dec, es[1..], o - |ln| - 1);
        var k := LinesCut(enc, es[1..], o - |ln| - 1);
        assert es[1..][k..] == es[1 + k..];
      }
    }
  }

  lemma OneLineLonger(enc: Entry -> string, es: seq<Entry>, k: nat)
    requires k < |es|
    ensures |FileText(enc, es[..k+1])| == |enc(es[0])| + 1 + |FileText(enc, es[1..][..k])|
  {
    assert es[..k+1][1..] == es[1..][..k];
  }

  /** The cut costs the lines that begin at or before it, and no other. */
  lemma {:induction false} LinesCutIsTight(enc: Entry -> string, es: seq<Entry>, o: nat)
    requires o <= |FileText(enc, es)| && es != []
    ensures var k := LinesCut(enc, es, o);
            k >= 1 && |FileText(enc, es[..k-1])| <= o && (k < |es| ==> o < |FileText(enc, es[..k])|)
  {
    var n := |enc(es[0])| + 1;
    OneLineLonger(enc, es, 0);
    if o >= n && |es| > 1 {
      LinesCutIsTight(enc, es[1..], o - n);
      var k := LinesCut(enc, es, o);
      OneLineLonger(enc, es, k - 2);
      OneLineLonger(enc, es, k - 1);
    }
  }

  /** How many of the oldest lines a bounded read of a snapshot of `es` leaves out. */
  function LinesLost(enc: Entry -> string, es: seq<Entry>, cap: nat): (k: nat)
    ensures k <= |es|
  {
    var n := |FileText(enc, es)|;
    if n > cap then LinesCut(enc, es, n - cap) else 0
  }

  lemma TailIsWholeLines(enc: Entry -> string, dec: string -> Option<Entry>, es: seq<Entry>, cap: nat)
    requires Codec(enc, dec)
    ensures TailRead(FileText(enc, es), cap) == FileText(enc, es[LinesLost(enc, es, cap)..])
  {
    var n := |FileText(enc, es)|;
    if n > cap {
      CutKeepsWholeLines(enc, dec, es, n - cap);
    } else {
      assert es[0..] == es;
    }
  }

  /** A load of a save: the saved entries, less the oldest the bound cut off and the over-long. */
  lemma SaveThenRead(enc: Entry -> string, dec: string -> Option<Entry>, es: seq<Entry>, cap: nat)
    requires Codec(enc, dec)
    ensures Read(dec, FileText(enc, es), cap) == Short(enc, es[LinesLost(enc, es, cap)..])
  {
    TailIsWholeLines(enc, dec, es, cap);
    TrimmingLosesNothing(dec, TailRead(FileText(enc, es), cap));
    WholeFileReadsBack(enc, dec, es[LinesLost(enc, es, cap)..]);
  }

  /** The bound costs a line only when the lines from it on fill the bound. */
  lemma LinesLostIsTight(enc: Entry -> string, es: seq<Entry>, cap: nat)
    ensures var k := LinesLost(enc, es, cap);
            && |FileText(enc, es[k..])| <= cap
            && (k > 0 ==> |FileText(enc, es[k-1..])| >= cap)
            && (k > 0 <==> |FileText(enc, es)| > cap)
  {
    var file, k := FileText(enc, es), LinesLost(enc, es, cap);
    if |file| > cap {
      LinesCutIsTight(enc, es, |file| - cap);
      assert es == es[..k] + es[k..] && es == es[..k-1] + es[k-1..];
      FileTextConcat(enc, es[..k], es[k..]);
      FileTextConcat(enc, es[..k-1], es[k-1..]);
      if k == |es| {
        assert es[k..] == [];
      }
    } else {
      assert es[0..] == es;
    }
  }

  // ---------------------------------------------------- the older format

  function PlainText(lns: seq<string>): string {
    if lns == [] then "" else lns[0] + "\n" + PlainText(lns[1..])
  }

  /** A line that is no encoded entry. */
  predicate Plain(dec: string -> Option<Entry>, ln: string) {
    ln != "" && |ln| <= 1024 * 1024 && '\n' !in ln && (ln[0] != '{' || dec(ln).None?)
  }

  /** A snapshot of the older format loads line by line, each line as both of its forms. */
  lemma {:induction false} PlainLinesLoad(dec: string -> Option<Entry>, lns: seq<string>)
    requires forall ln :: ln in lns ==> Plain(dec, ln)
    ensures ParseLines(dec, Split(PlainText(lns))) == seq(|lns|, i requires 0 <= i < |lns| => Entry(lns[i], lns[i]))
  {
    if lns != [] {
      var ln, rest := lns[0], PlainText(lns[1..]);
      assert Plain(dec, ln);
      SplitAtNewline(ln, rest);
      SplitOneLine(ln);
      ParseConcat(dec, [ln], Split(rest));
      PlainLinesLoad(dec, lns[1..]);
      assert ParseLines(dec, [ln]) == [Entry(ln, ln)];
    }
  }
}
