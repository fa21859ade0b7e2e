/** Values shared by the edge function, the result view and the two UI components:
    the analysis record the AI gateway is asked to produce, the files the user picks,
    and the JavaScript coercions (truthiness, number-to-string) the source relies on. */
module Records {

  datatype Option<+T> = None | Some(value: T)

  /** A browser `File`, reduced to what the components look at: its name and MIME type. */
  datatype File = File(name: string, mimeType: string)

  /** A toast notification: its title, its description, and whether it is the destructive variant. */
  datatype Toast = Toast(title: string, description: string, destructive: bool)

  /** `BoundingBox` of AnalysisResults.tsx: percentages of the image size. */
  datatype BoundingBox = BoundingBox(x: int, y: int, width: int, height: int)

  /** `CamouflageRegion` of AnalysisResults.tsx: one heat-map rectangle with its intensity. */
  datatype CamouflageRegion = CamouflageRegion(
    description: string, intensity: int, x: int, y: int, width: int, height: int)

  /** `AnalysisData` of AnalysisResults.tsx. `species` and `camouflageRegions` are optional
      properties there; a JSON `null` and an absent property are both `None`. */
  datatype AnalysisData = AnalysisData(
    detected: bool,
    species: Option<string>,
    camouflagePercentage: int,
    confidence: int,
    description: string,
    adaptations: seq<string>,
    boundingBox: Option<BoundingBox>,
    camouflageRegions: Option<seq<CamouflageRegion>>)

  /** JavaScript truthiness of an optional string: `undefined`, `null` and `""` are falsy. */
  predicate Truthy(s: Option<string>) {
    s.Some? && |s.value| > 0
  }

  predicate IsDigit(c: char) {
    '0' <= c <= '9'
  }

  /** Decimal value of a string of digits; the reference against which NatToString is checked. */
  function DecimalValue(s: string): nat
    requires forall i :: 0 <= i < |s| ==> IsDigit(s[i])
  {
    if s == [] then 0
    else DecimalValue(s[..|s| - 1]) * 10 + DigitValue(s[|s| - 1])
  }

  function DigitValue(c: char): nat
    requires IsDigit(c)
  {
    c as int - '0' as int
  }

  /** `${n}` for a non-negative integer: its decimal digits, no leading zero. */
  function NatToString(n: nat): (s: string)
    ensures |s| > 0 && forall i :: 0 <= i < |s| ==> IsDigit(s[i])
    ensures |s| > 1 ==> s[0] != '0'
  {
    if n < 10 then [('0' as int + n) as char]
    else NatToString(n / 10) + [('0' as int + n % 10) as char]
  }

  /** `${n}` for any integer: a minus sign, then the digits of the magnitude. */
  function IntToString(n: int): (s: string)
    ensures |s| > 0
    ensures (s[0] == '-') <==> n < 0
  {
    if n < 0 then "-" + NatToString(-n) else NatToString(n)
  }

  /** Reading back the digits of NatToString gives the number: the text is the value. */
  lemma {:induction false} NatToStringValue(n: nat)
    ensures DecimalValue(NatToString(n)) == n
  {
    var s := NatToString(n);
    if n >= 10 {
      NatToStringValue(n / 10);
      assert s[..|s| - 1] == NatToString(n / 10);
    }
  }

  /** Distinct numbers print differently, so a message or label built from a number
      identifies it. */
  lemma IntToStringInjective(a: int, b: int)
    requires IntToString(a) == IntToString(b)
    ensures a == b
  {
    if a < 0 {
      assert NatToString(-a) == IntToString(a)[1..] == IntToString(b)[1..] == NatToString(-b);
      NatToStringValue(-a);
      NatToStringValue(-b);
    } else {
      NatToStringValue(a);
      NatToStringValue(b);
    }
  }
}
