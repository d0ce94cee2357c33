/** `readConfig`: the line-oriented `key=value` reader of the configuration
    file, as a pure function over the buffers `fgets` returns, one per call
    (a line with its trailing '\n', or a 254-character chunk of a longer one).

    A counter `input` says which output the next '=' fills: 0 timeout,
    1 logFileName, 2 statsFileName, 3 statsFrequency, 4 speedLimit,
    5 distanceBetweenLasers; from 6 on an '=' is ignored.
 */
module ConfigReader {

  datatype Option<T> = None | Some(value: T)

  /** The six outputs. A file name is `None` while it is still the caller's
      uninitialised buffer. */
  datatype Config = Config(
    timeout: nat,
    logFileName: Option<string>,
    statsFileName: Option<string>,
    statsFrequency: nat,
    speedLimit: nat,
    distanceBetweenLasers: nat)

  /** The reader's state between characters: the field counter and the outputs so far. */
  datatype Reader = Reader(input: nat, config: Config)

  /** The outputs as `main` declares them before the call: timeout 0, the
      file-name buffers uninitialised, and the three defaults. */
  const MainInitial: Config := Config(0, None, None, 60, 1, 3)

  /** The prefix of `s` before the first `c`, all of `s` when there is none. */
  function Before(s: string, c: char): (p: string)
    ensures |p| <= |s| && p == s[..|p|]
    ensures c !in p
    ensures |p| < |s| ==> s[|p|] == c
  {
    if s == [] || s[0] == c then []
    else
      var rest := Before(s[1..], c);
      assert s[..|rest| + 1] == [s[0]] + s[1..][..|rest|];
      [s[0]] + rest
  }

  /** What the C loops see of an `fgets` buffer: the characters before its
      terminating NUL. */
  function CString(buffer: string): (c: string)
    ensures |c| <= |buffer| && c == buffer[..|c|] && '\0' !in c
    ensures |c| < |buffer| ==> buffer[|c|] == '\0'
  {
    Before(buffer, '\0')
  }

  predicate IsDigit(c: char) {
    '0' <= c <= '9'
  }

  function DigitValue(c: char): nat
    requires IsDigit(c)
  {
    (c as int) - ('0' as int)
  }

  /** The fields filled with a decimal number. */
  predicate IsNumberField(input: nat) {
    input == 0 || input == 3 || input == 4 || input == 5
  }

  /** The fields filled with a file name. */
  predicate IsNameField(input: nat) {
    input == 1 || input == 2
  }

  function NumberField(cfg: Config, input: nat): nat
    requires IsNumberField(input)
  {
    match input
    case 0 => cfg.timeout
    case 3 => cfg.statsFrequency
    case 4 => cfg.speedLimit
    case 5 => cfg.distanceBetweenLasers
  }

  function WithNumber(cfg: Config, input: nat, n: nat): (r: Config)
    requires IsNumberField(input)
    ensures NumberField(r, input) == n
  {
    match input
    case 0 => cfg.(timeout := n)
    case 3 => cfg.(statsFrequency := n)
    case 4 => cfg.(speedLimit := n)
    case 5 => cfg.(distanceBetweenLasers := n)
  }

  function WithName(cfg: Config, input: nat, name: string): (r: Config)
    requires IsNameField(input)
  {
    if input == 1 then cfg.(logFileName := Some(name)) else cfg.(statsFileName := Some(name))
  }

  /** A file name as the copy loop can produce it. */
  predicate CleanName(name: string) {
    ' ' !in name && '=' !in name && '\n' !in name
  }

  /** The numeric loop: from the '=' at `i` to the end of the buffer every
      digit is appended, `acc * 10 + digit`, to the field's current value. */
  function AccumulateDigits(s: string, i: nat, acc: nat): (r: nat)
    requires i <= |s|
    ensures acc <= r
    ensures (forall k :: i <= k < |s| ==> !IsDigit(s[k])) ==> r == acc
    decreases |s| - i
  {
    if i == |s| then acc
    else AccumulateDigits(s, i + 1, if IsDigit(s[i]) then acc * 10 + DigitValue(s[i]) else acc)
  }

  /** The file-name loop: from `i` up to the first '\n' or the end, every
      character but ' ' and '=' is copied. Also returns where it stopped. */
  function CopyName(s: string, i: nat): (r: (string, nat))
    requires i <= |s|
    ensures i <= r.1 <= |s|
    ensures r.1 == |s| || s[r.1] == '\n'
    ensures forall k :: i <= k < r.1 ==> s[k] != '\n'
    ensures CleanName(r.0)
    ensures |r.0| <= r.1 - i
    decreases |s| - i
  {
    if i == |s| || s[i] == '\n' then ([], i)
    else
      var (name, stop) := CopyName(s, i + 1);
      (if s[i] != ' ' && s[i] != '=' then [s[i]] + name else name, stop)
  }

  /** A file name as the reader leaves it: the prior value, or a clean copy. */
  predicate NameFrom(before: Option<string>, after: Option<string>) {
    after == before || (after.Some? && CleanName(after.value))
  }

  /** The reader's outputs only change by filling fields in order: the fields
      below the counter are never touched again and the names stay clean. */
  predicate Advances(a: Reader, b: Reader) {
    && a.input <= b.input
    && (a.input > 0 ==> b.config.timeout == a.config.timeout)
    && (a.input > 1 ==> b.config.logFileName == a.config.logFileName)
    && (a.input > 2 ==> b.config.statsFileName == a.config.statsFileName)
    && (a.input > 3 ==> b.config.statsFrequency == a.config.statsFrequency)
    && (a.input > 4 ==> b.config.speedLimit == a.config.speedLimit)
    && (a.input > 5 ==> b.config.distanceBetweenLasers == a.config.distanceBetweenLasers)
    && NameFrom(a.config.logFileName, b.config.logFileName)
    && NameFrom(a.config.statsFileName, b.config.statsFileName)
  }

  /** The character loop over one buffer that does not start with '#'. After
      a numeric field the rest of the buffer has been consumed; after a file
      name the scan resumes at the '\n' (or the end) where the copy stopped. */
  function ScanLine(s: string, i: nat, rd: Reader): (r: Reader)
    requires i <= |s|
    ensures Advances(rd, r)
    ensures rd.input >= 6 ==> r == rd
    ensures (forall k :: i <= k < |s| ==> s[k] != '=') ==> r == rd
    decreases |s| - i
  {
    if i == |s| then rd
    else if s[i] == '=' && IsNumberField(rd.input) then
      Reader(rd.input + 1, WithNumber(rd.config, rd.input, AccumulateDigits(s, i, NumberField(rd.config, rd.input))))
    else if s[i] == '=' && IsNameField(rd.input) then
      var (name, stop) := CopyName(s, i);
      ScanLine(s, stop, Reader(rd.input + 1, WithName(rd.config, rd.input, name)))
    else ScanLine(s, i + 1, rd)
  }

  /** A buffer whose first character is '#' is a comment. */
  predicate Comment(c: string) {
    |c| > 0 && c[0] == '#'
  }

  /** One `fgets` buffer. */
  function ReadLine(buffer: string, rd: Reader): (r: Reader)
    ensures Advances(rd, r)
    ensures Comment(buffer) ==> r == rd
  {
    var c := CString(buffer);
    if Comment(c) then rd else ScanLine(c, 0, rd)
  }

  /** The `while(fgets(...) != NULL)` loop, buffer by buffer. */
  function ReadLines(buffers: seq<string>, rd: Reader): (r: Reader)
    ensures Advances(rd, r)
    decreases |buffers|
  {
    if buffers == [] then rd else ReadLines(buffers[1..], ReadLine(buffers[0], rd))
  }

  /** The prior outputs with the four numeric ones set to 0, as the function
      does before reading anything. */
  function Zeroed(prior: Config): Config {
    prior.(timeout := 0, statsFrequency := 0, speedLimit := 0, distanceBetweenLasers := 0)
  }

  /** `readConfig(configFile, ...)` with the caller's prior outputs; the file
      names are left as they were unless a line fills them. */
  function ReadConfig(prior: Config, buffers: seq<string>): (r: Config)
    ensures NameFrom(prior.logFileName, r.logFileName)
    ensures NameFrom(prior.statsFileName, r.statsFileName)
  {
    ReadLines(buffers, Reader(0, Zeroed(prior))).config
  }
}
