/** Names under which uploaded and generated images are stored, and the
    product description echoed to the payment provider. */
module Naming {
  import opened Outcomes

  predicate IsDigit(c: char) {
    '0' <= c <= '9'
  }

  predicate AllDigits(s: string) {
    forall i | 0 <= i < |s| :: IsDigit(s[i])
  }

  function DigitChar(d: nat): (c: char)
    requires d < 10
    ensures IsDigit(c)
  {
    ('0' as int + d) as char
  }

  /** The decimal text of a timestamp, as a template literal renders
      `Date.now()`. */
  function Decimal(n: nat): (s: string)
    ensures |s| >= 1 && AllDigits(s)
    decreases n
  {
    if n < 10 then [DigitChar(n)] else Decimal(n / 10) + [DigitChar(n % 10)]
  }

  /** The number a string of decimal digits denotes. */
  function DigitsValue(s: string): nat
    requires AllDigits(s)
  {
    if s == [] then 0
    else DigitsValue(s[..|s| - 1]) * 10 + (s[|s| - 1] as int - '0' as int)
  }

  /** Reading back the decimal text of a timestamp gives the timestamp. */
  lemma {:induction false} DecimalRoundTrip(n: nat)
    ensures DigitsValue(Decimal(n)) == n
  {
    if n >= 10 {
      var s := Decimal(n);
      assert s[..|s| - 1] == Decimal(n / 10);
      DecimalRoundTrip(n / 10);
    }
  }

  /** Blob name of an uploaded image: `input-<timestamp>-<file name>`. */
  function InputFilename(now: nat, fileName: string): (name: string)
    ensures "input-" <= name
    ensures |name| >= |fileName| + 8 && name[|name| - |fileName|..] == fileName
  {
    "input-" + Decimal(now) + "-" + fileName
  }

  /** Blob name of a generated image: `output-<timestamp>.png`. */
  function OutputFilename(now: nat): (name: string)
    ensures "output-" <= name && |name| >= 12
    ensures name[|name| - 4..] == ".png"
    ensures '/' !in name
  {
    "output-" + Decimal(now) + ".png"
  }

  /** The first position of `c` in `s`, if any. */
  function FirstIndex(s: string, c: char): (r: Option<nat>)
    ensures r.None? ==> c !in s
    ensures r.Some? ==> r.value < |s| && s[r.value] == c && c !in s[..r.value]
  {
    if s == [] then None
    else if s[0] == c then Some(0)
    else
      match FirstIndex(s[1..], c)
      case None => None
      case Some(k) =>
        assert s[..k + 1] == [s[0]] + s[1..][..k];
        Some(k + 1)
  }

  /** Splits an input blob name back into its timestamp and file name. */
  function ParseInputFilename(s: string): Option<(nat, string)> {
    if |s| < 6 || s[..6] != "input-" then None
    else
      var rest := s[6..];
      match FirstIndex(rest, '-')
      case None => None
      case Some(k) =>
        var digits := rest[..k];
        if digits == [] || !AllDigits(digits) then None
        else Some((DigitsValue(digits), rest[k + 1..]))
  }

  /** The input blob name records the upload time and the file name so that
      both can be read back from it, whatever the file name holds. */
  lemma InputFilenameRoundTrip(now: nat, fileName: string)
    ensures ParseInputFilename(InputFilename(now, fileName)) == Some((now, fileName))
  {
    var d := Decimal(now);
    var s := InputFilename(now, fileName);
    assert s[..6] == "input-";
    var rest := s[6..];
    assert rest == d + "-" + fileName;
    var k := FirstIndex(rest, '-');
    assert rest[|d|] == '-';
    assert k == Some(|d|);
    assert rest[..|d|] == d;
    assert rest[|d| + 1..] == fileName;
    DecimalRoundTrip(now);
  }

  /** Two uploads get the same blob name only if they share both the upload
      time and the file name. */
  lemma InputFilenameInjective(now1: nat, name1: string, now2: nat, name2: string)
    requires InputFilename(now1, name1) == InputFilename(now2, name2)
    ensures now1 == now2 && name1 == name2
  {
    InputFilenameRoundTrip(now1, name1);
    InputFilenameRoundTrip(now2, name2);
  }

  /** A generated image's name never collides with an uploaded image's. */
  lemma OutputNameDiffersFromInputNames(now: nat, now': nat, fileName: string)
    ensures OutputFilename(now) != InputFilename(now', fileName)
  {
    assert OutputFilename(now)[0] == 'o' && InputFilename(now', fileName)[0] == 'i';
  }

  /** Neither kind of blob name holds a '/' when the uploaded file's name
      holds none, so each is the last segment of its public URL. */
  lemma FilenamesHaveNoSlash(now: nat, fileName: string)
    requires '/' !in fileName
    ensures '/' !in InputFilename(now, fileName)
    ensures '/' !in OutputFilename(now)
  {
    var d := Decimal(now);
    assert forall i | 0 <= i < |d| :: d[i] != '/';
  }

  const DescriptionLimit := 100

  /** `prompt.substring(0, 100)`: the first 100 characters of the prompt,
      or all of it when it is shorter. */
  function Description(prompt: string): (d: string)
    ensures d <= prompt
    ensures |d| == if |prompt| < DescriptionLimit then |prompt| else DescriptionLimit
  {
    if |prompt| <= DescriptionLimit then prompt else prompt[..DescriptionLimit]
  }
}
