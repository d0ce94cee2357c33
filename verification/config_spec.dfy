/** What `readConfig` computes, stated line by line instead of character by
    character: the k-th buffer that is not a comment and contains an '='
    fills the k-th output, a number being every digit after that '=' and a
    file name every character after it up to the newline except ' ' and '='.
    The two agree on every sequence of buffers `fgets` can return, where a
    '\n' can only be the last character. */
module ConfigSpec {
  import opened ConfigReader

  predicate AllDigits(ds: string) {
    forall k :: 0 <= k < |ds| ==> IsDigit(ds[k])
  }

  /** The decimal value of a digit string, most significant digit first. */
  function DecimalValue(ds: string): nat
    requires AllDigits(ds)
    decreases |ds|
  {
    if ds == [] then 0 else DecimalValue(ds[..|ds| - 1]) * 10 + DigitValue(ds[|ds| - 1])
  }

  /** The digits of `s`, in order. */
  function Digits(s: string): (ds: string)
    ensures AllDigits(ds) && |ds| <= |s|
  {
    if s == [] then [] else (if IsDigit(s[0]) then [s[0]] else []) + Digits(s[1..])
  }

  /** `s` without its spaces and '=' characters. */
  function Keep(s: string): string {
    if s == [] then [] else (if s[0] != ' ' && s[0] != '=' then [s[0]] else []) + Keep(s[1..])
  }

  /** What follows the first '=' of `c`. */
  function ValueOf(c: string): string {
    var e := |Before(c, '=')|;
    if e < |c| then c[e + 1..] else []
  }

  function NumberIn(c: string): nat {
    DecimalValue(Digits(ValueOf(c)))
  }

  function NameIn(c: string): string {
    Keep(Before(ValueOf(c), '\n'))
  }

  /** A buffer that fills a field: not a comment, and holding an '='. */
  predicate IsField(c: string) {
    !Comment(c) && '=' in c
  }

  /** The field-filling buffers, as the C loops see them, in file order. */
  function FieldLines(buffers: seq<string>): seq<string>
    decreases |buffers|
  {
    if buffers == [] then []
    else
      var c := CString(buffers[0]);
      (if IsField(c) then [c] else []) + FieldLines(buffers[1..])
  }

  /** The outputs the file's field lines determine: timeout, statsFrequency,
      speedLimit and distanceBetweenLasers from the 1st, 4th, 5th and 6th
      field line or 0, the two file names from the 2nd and 3rd or the
      caller's buffers. */
  function Expected(prior: Config, buffers: seq<string>): Config {
    var f := FieldLines(buffers);
    Config(
      if |f| > 0 then NumberIn(f[0]) else 0,
      if |f| > 1 then Some(NameIn(f[1])) else prior.logFileName,
      if |f| > 2 then Some(NameIn(f[2])) else prior.statsFileName,
      if |f| > 3 then NumberIn(f[3]) else 0,
      if |f| > 4 then NumberIn(f[4]) else 0,
      if |f| > 5 then NumberIn(f[5]) else 0)
  }

  /** No '\n' before the last character, as in every `fgets` buffer. */
  predicate NoInnerNewline(c: string) {
    forall k :: 0 <= k < |c| - 1 ==> c[k] != '\n'
  }

  predicate FgetsShaped(buffers: seq<string>) {
    forall n :: 0 <= n < |buffers| ==> NoInnerNewline(buffers[n])
  }

  // ---------------------------------------------------------------------
  // The line-level reader the proof goes through.

  /** The field counter's effect of one field line. */
  function SetField(cfg: Config, input: nat, c: string): (r: Config)
    requires input < 6
    ensures r.timeout == if input == 0 then NumberIn(c) else cfg.timeout
    ensures r.logFileName == if input == 1 then Some(NameIn(c)) else cfg.logFileName
    ensures r.statsFileName == if input == 2 then Some(NameIn(c)) else cfg.statsFileName
    ensures r.statsFrequency == if input == 3 then NumberIn(c) else cfg.statsFrequency
    ensures r.speedLimit == if input == 4 then NumberIn(c) else cfg.speedLimit
    ensures r.distanceBetweenLasers == if input == 5 then NumberIn(c) else cfg.distanceBetweenLasers
  {
    if IsNumberField(input) then WithNumber(cfg, input, NumberIn(c))
    else WithName(cfg, input, NameIn(c))
  }

  function FillOne(rd: Reader, c: string): Reader {
    if rd.input >= 6 then rd else Reader(rd.input + 1, SetField(rd.config, rd.input, c))
  }

  function Fill(rd: Reader, f: seq<string>): Reader
    decreases |f|
  {
    if f == [] then rd else Fill(FillOne(rd, f[0]), f[1..])
  }

  /** The numeric fields the counter has not reached yet are still 0. */
  predicate Fresh(rd: Reader) {
    && (rd.input <= 0 ==> rd.config.timeout == 0)
    && (rd.input <= 3 ==> rd.config.statsFrequency == 0)
    && (rd.input <= 4 ==> rd.config.speedLimit == 0)
    && (rd.input <= 5 ==> rd.config.distanceBetweenLasers == 0)
  }

  /** Horner's rule from the front agrees with the value from the back:
      continuing from the value of `ds` appends the remaining digits to it. */
  lemma {:induction false} AccumulateDigitsValue(s: string, i: nat, ds: string)
    requires i <= |s| && AllDigits(ds)
    ensures AllDigits(ds + Digits(s[i..]))
    ensures AccumulateDigits(s, i, DecimalValue(ds)) == DecimalValue(ds + Digits(s[i..]))
    decreases |s| - i
  {
    if i == |s| {
      assert s[i..] == [];
      assert ds + [] == ds;
    } else {
      assert s[i..][0] == s[i] && s[i..][1..] == s[i + 1..];
      if IsDigit(s[i]) {
        var ds' := ds + [s[i]];
        assert ds'[..|ds'| - 1] == ds;
        assert DecimalValue(ds') == DecimalValue(ds) * 10 + DigitValue(s[i]);
        AccumulateDigitsValue(s, i + 1, ds');
        assert ds' + Digits(s[i + 1..]) == ds + Digits(s[i..]);
      } else {
        AccumulateDigitsValue(s, i + 1, ds);
        assert Digits(s[i..]) == Digits(s[i + 1..]);
      }
    }
  }

  /** The copy loop copies exactly `Keep` of the text up to the newline. */
  lemma {:induction false} CopyNameValue(s: string, i: nat)
    requires i <= |s|
    ensures CopyName(s, i).0 == Keep(Before(s[i..], '\n'))
    ensures CopyName(s, i).1 == i + |Before(s[i..], '\n')|
    decreases |s| - i
  {
    if i == |s| {
      assert s[i..] == [];
    } else {
      assert s[i..][0] == s[i] && s[i..][1..] == s[i + 1..];
      if s[i] != '\n' {
        CopyNameValue(s, i + 1);
        var b := Before(s[i..], '\n');
        assert b == [s[i]] + Before(s[i + 1..], '\n');
        assert b[0] == s[i] && b[1..] == Before(s[i + 1..], '\n');
      }
    }
  }

  /** Characters before the first '=' are passed over. */
  lemma {:induction false} ScanSkips(s: string, i: nat, j: nat, rd: Reader)
    requires i <= j <= |s|
    requires forall k :: i <= k < j ==> s[k] != '='
    ensures ScanLine(s, i, rd) == ScanLine(s, j, rd)
    decreases j - i
  {
    if i < j {
      ScanSkips(s, i + 1, j, rd);
    }
  }

  /** A field line of the `fgets` shape fills exactly the field the counter
      points at, with the value the line-level reading gives it. */
  lemma ScanFieldLine(c: string, rd: Reader)
    requires IsField(c) && NoInnerNewline(c)
    requires rd.input < 6 && Fresh(rd)
    ensures ScanLine(c, 0, rd) == FillOne(rd, c)
  {
    var e := |Before(c, '=')|;
    assert c[..|c|] == c;
    assert e < |c| && c[e] == '=';
    ScanSkips(c, 0, e, rd);
    assert ValueOf(c) == c[e + 1..];
    assert c[e..][0] == '=' && c[e..][1..] == c[e + 1..];
    if IsNumberField(rd.input) {
      assert NumberField(rd.config, rd.input) == 0 == DecimalValue([]);
      AccumulateDigitsValue(c, e, []);
      assert [] + Digits(c[e..]) == Digits(c[e..]) == Digits(c[e + 1..]);
    } else {
      CopyNameValue(c, e);
      var b := Before(c[e..], '\n');
      assert b[0] == '=' && b[1..] == Before(c[e + 1..], '\n');
      assert Keep(b) == NameIn(c);
      var stop := CopyName(c, e).1;
      var rd' := Reader(rd.input + 1, WithName(rd.config, rd.input, NameIn(c)));
      if stop < |c| {
        assert stop == |c| - 1;
        assert ScanLine(c, stop, rd') == ScanLine(c, stop + 1, rd');
      }
    }
  }

  /** Over `fgets`-shaped buffers the character loop is the line-level reader. */
  lemma {:induction false} ReadLinesFill(buffers: seq<string>, rd: Reader)
    requires FgetsShaped(buffers) && Fresh(rd)
    ensures ReadLines(buffers, rd) == Fill(rd, FieldLines(buffers))
    decreases |buffers|
  {
    if buffers != [] {
      var c := CString(buffers[0]);
      var rest := buffers[1..];
      assert FgetsShaped(rest) by {
        forall n | 0 <= n < |rest| ensures NoInnerNewline(rest[n]) {
          assert rest[n] == buffers[n + 1];
        }
      }
      assert NoInnerNewline(buffers[0]);
      if IsField(c) {
        var next := FillOne(rd, c);
        if rd.input < 6 {
          ScanFieldLine(c, rd);
        }
        assert ReadLine(buffers[0], rd) == next;
        ReadLinesFill(rest, next);
        assert ([c] + FieldLines(rest))[1..] == FieldLines(rest);
      } else {
        assert ReadLine(buffers[0], rd) == rd;
        ReadLinesFill(rest, rd);
        assert FieldLines(buffers) == FieldLines(rest);
      }
    }
  }

  /** Field `j` as the line-level reader leaves it when it starts at
      counter `k`: the `(j - k)`-th line fills it, if there is one. */
  function NumberAt(j: nat, k: nat, f: seq<string>, prior: nat): nat {
    if k <= j < k + |f| then NumberIn(f[j - k]) else prior
  }

  function NameAt(j: nat, k: nat, f: seq<string>, prior: Option<string>): Option<string> {
    if k <= j < k + |f| then Some(NameIn(f[j - k])) else prior
  }

  /** Filling field `k` from the first line and then starting at `k + 1`
      on the rest puts every field where starting at `k` does. */
  lemma NumberAtShift(j: nat, k: nat, f: seq<string>, before: nat, after: nat)
    requires f != [] && after == (if j == k then NumberIn(f[0]) else before)
    ensures NumberAt(j, k + 1, f[1..], after) == NumberAt(j, k, f, before)
  {
    if k + 1 <= j < k + |f| {
      assert f[1..][j - (k + 1)] == f[j - k];
    }
  }

  lemma NameAtShift(j: nat, k: nat, f: seq<string>, before: Option<string>, after: Option<string>)
    requires f != [] && after == (if j == k then Some(NameIn(f[0])) else before)
    ensures NameAt(j, k + 1, f[1..], after) == NameAt(j, k, f, before)
  {
    if k + 1 <= j < k + |f| {
      assert f[1..][j - (k + 1)] == f[j - k];
    }
  }

  lemma {:induction false} FillPositions(k: nat, cfg: Config, f: seq<string>)
    ensures Fill(Reader(k, cfg), f).config ==
      Config(NumberAt(0, k, f, cfg.timeout),
             NameAt(1, k, f, cfg.logFileName),
             NameAt(2, k, f, cfg.statsFileName),
             NumberAt(3, k, f, cfg.statsFrequency),
             NumberAt(4, k, f, cfg.speedLimit),
             NumberAt(5, k, f, cfg.distanceBetweenLasers))
    decreases |f|
  {
    if f != [] {
      if k >= 6 {
        FillPositions(k, cfg, f[1..]);
        assert Fill(Reader(k, cfg), f) == Fill(Reader(k, cfg), f[1..]);
      } else {
        var cfg' := SetField(cfg, k, f[0]);
        assert Fill(Reader(k, cfg), f) == Fill(Reader(k + 1, cfg'), f[1..]);
        FillPositions(k + 1, cfg', f[1..]);
        NumberAtShift(0, k, f, cfg.timeout, cfg'.timeout);
        NameAtShift(1, k, f, cfg.logFileName, cfg'.logFileName);
        NameAtShift(2, k, f, cfg.statsFileName, cfg'.statsFileName);
        NumberAtShift(3, k, f, cfg.statsFrequency, cfg'.statsFrequency);
        NumberAtShift(4, k, f, cfg.speedLimit, cfg'.speedLimit);
        NumberAtShift(5, k, f, cfg.distanceBetweenLasers, cfg'.distanceBetweenLasers);
      }
    }
  }

  /** The main correspondence: on `fgets`-shaped input `readConfig` fills its
      outputs from the first six field lines, in order. */
  lemma ReadConfigMatchesReference(prior: Config, buffers: seq<string>)
    requires FgetsShaped(buffers)
    ensures ReadConfig(prior, buffers) == Expected(prior, buffers)
  {
    ReadLinesFill(buffers, Reader(0, Zeroed(prior)));
    FillPositions(0, Zeroed(prior), FieldLines(buffers));
  }

  /** Two readers at the same counter with the same numeric outputs. */
  predicate SameNumbers(a: Reader, b: Reader) {
    && a.input == b.input
    && a.config.timeout == b.config.timeout
    && a.config.statsFrequency == b.config.statsFrequency
    && a.config.speedLimit == b.config.speedLimit
    && a.config.distanceBetweenLasers == b.config.distanceBetweenLasers
  }

  lemma {:induction false} ScanSameNumbers(s: string, i: nat, a: Reader, b: Reader)
    requires i <= |s| && SameNumbers(a, b)
    ensures SameNumbers(ScanLine(s, i, a), ScanLine(s, i, b))
    decreases |s| - i
  {
    if i < |s| {
      if s[i] == '=' && IsNumberField(a.input) {
      } else if s[i] == '=' && IsNameField(a.input) {
        var (name, stop) := CopyName(s, i);
        ScanSameNumbers(s, stop, Reader(a.input + 1, WithName(a.config, a.input, name)),
                        Reader(b.input + 1, WithName(b.config, b.input, name)));
      } else {
        ScanSameNumbers(s, i + 1, a, b);
      }
    }
  }

  lemma {:induction false} ReadLinesSameNumbers(buffers: seq<string>, a: Reader, b: Reader)
    requires SameNumbers(a, b)
    ensures SameNumbers(ReadLines(buffers, a), ReadLines(buffers, b))
    decreases |buffers|
  {
    if buffers != [] {
      var c := CString(buffers[0]);
      if !Comment(c) {
        ScanSameNumbers(c, 0, a, b);
      }
      ReadLinesSameNumbers(buffers[1..], ReadLine(buffers[0], a), ReadLine(buffers[0], b));
    }
  }

  /** The four numeric outputs are set to 0 before anything is read, so the
      caller's defaults never survive: whatever the file, they do not depend
      on what the caller passed in. */
  lemma DefaultsDiscarded(prior: Config, other: Config, buffers: seq<string>)
    ensures var r, q := ReadConfig(prior, buffers), ReadConfig(other, buffers);
      && r.timeout == q.timeout
      && r.statsFrequency == q.statsFrequency
      && r.speedLimit == q.speedLimit
      && r.distanceBetweenLasers == q.distanceBetweenLasers
  {
    ReadLinesSameNumbers(buffers, Reader(0, Zeroed(prior)), Reader(0, Zeroed(other)));
  }

  /** With no field line at all the numeric outputs are 0 and the names are
      the caller's: in particular `main`'s defaults 60, 1 and 3 are lost. */
  lemma {:induction false} NoFieldLinesReadsZero(buffers: seq<string>, rd: Reader)
    requires FieldLines(buffers) == []
    ensures ReadLines(buffers, rd) == rd
    decreases |buffers|
  {
    if buffers != [] {
      var c := CString(buffers[0]);
      assert !IsField(c) by {
        assert FieldLines(buffers) == (if IsField(c) then [c] else []) + FieldLines(buffers[1..]);
      }
      assert ReadLine(buffers[0], rd) == rd;
      NoFieldLinesReadsZero(buffers[1..], rd);
    }
  }

  lemma EmptyFileLosesDefaults(buffers: seq<string>)
    requires FieldLines(buffers) == []
    ensures ReadConfig(MainInitial, buffers) == Config(0, None, None, 0, 0, 0)
  {
    NoFieldLinesReadsZero(buffers, Reader(0, Zeroed(MainInitial)));
  }

  /** A buffer starting with '#' changes nothing, wherever it is. */
  lemma CommentSkipped(buffer: string, rd: Reader, rest: seq<string>)
    requires Comment(buffer)
    ensures ReadLines([buffer] + rest, rd) == ReadLines(rest, rd)
  {
    assert ([buffer] + rest)[1..] == rest;
  }

  lemma {:induction false} FieldLinesAppend(a: seq<string>, b: seq<string>)
    ensures FieldLines(a + b) == FieldLines(a) + FieldLines(b)
    decreases |a|
  {
    if a == [] {
      assert a + b == b;
    } else {
      assert (a + b)[0] == a[0] && (a + b)[1..] == a[1..] + b;
      var c := CString(a[0]);
      var head := if IsField(c) then [c] else [];
      assert FieldLines(a + b) == head + FieldLines(a[1..] + b);
      assert FieldLines(a) == head + FieldLines(a[1..]);
      FieldLinesAppend(a[1..], b);
    }
  }

  /** Once six field lines have been read the counter is past the last field:
      whatever follows them is ignored. */
  lemma LaterLinesIgnored(prior: Config, buffers: seq<string>, more: seq<string>)
    requires FgetsShaped(buffers) && FgetsShaped(more)
    requires |FieldLines(buffers)| >= 6
    ensures ReadConfig(prior, buffers + more) == ReadConfig(prior, buffers)
  {
    var all := buffers + more;
    assert FgetsShaped(all) by {
      forall n | 0 <= n < |all| ensures NoInnerNewline(all[n]) {
        if n < |buffers| { assert all[n] == buffers[n]; } else { assert all[n] == more[n - |buffers|]; }
      }
    }
    ReadConfigMatchesReference(prior, all);
    ReadConfigMatchesReference(prior, buffers);
    FieldLinesAppend(buffers, more);
    var f := FieldLines(buffers);
    assert forall j :: 0 <= j < 6 ==> (f + FieldLines(more))[j] == f[j];
  }
}
