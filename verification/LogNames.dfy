/** Log ids and body file names (src/logging/traffic-log.ts): why no two entries share a file. */
module LogNames {
  import opened Common
  import opened Text

  datatype BodyKind = RequestBody | ForwardedRequestBody | UpstreamResponseBody | ResponseBody

  function KindName(kind: BodyKind): string {
    match kind
    case RequestBody => "request"
    case ForwardedRequestBody => "forwarded-request"
    case UpstreamResponseBody => "upstream-response"
    case ResponseBody => "response"
  }

  /** `padStart(width, '0')`. */
  function PadZeros(s: string, width: nat): string {
    if |s| >= width then s else seq(width - |s|, _ => '0') + s
  }

  /** `date` is the ISO timestamp with its colons already replaced; it may be any text. */
  function FormatLogId(date: string, number: nat): string {
    date + "-" + PadZeros(Decimal(number), 6)
  }

  function BodyPath(dir: string, id: string, kind: BodyKind): string {
    dir + "/" + id + "." + KindName(kind) + ".bin"
  }

  /** Index of the last occurrence of a separator, or the length if there is none. */
  function LastIndex(s: string, separator: char): (i: nat)
    ensures i <= |s|
  {
    if separator !in s then |s|
    else if s[|s| - 1] == separator then |s| - 1
    else LastIndex(s[..|s| - 1], separator)
  }

  lemma {:induction false} LastIndexIs(a: string, x: string, separator: char)
    requires separator !in x
    ensures LastIndex(a + [separator] + x, separator) == |a|
    decreases |x|
  {
    var s := a + [separator] + x;
    assert s[|a|] == separator;
    if x != "" {
      assert x[|x| - 1] in x;
      assert s[..|s| - 1] == a + [separator] + x[..|x| - 1];
      LastIndexIs(a, x[..|x| - 1], separator);
    }
  }

  /** Splitting at the last separator is unambiguous. */
  lemma LastSplitUnique(a: string, x: string, b: string, y: string, separator: char)
    requires separator !in x && separator !in y
    requires a + [separator] + x == b + [separator] + y
    ensures a == b && x == y
  {
    var left, right := a + [separator] + x, b + [separator] + y;
    LastIndexIs(a, x, separator);
    LastIndexIs(b, y, separator);
    assert left[..|a|] == a && right[..|b|] == b;
    assert left[|a| + 1..] == x && right[|b| + 1..] == y;
  }

  predicate Digits(s: string) {
    forall i :: 0 <= i < |s| ==> '0' <= s[i] <= '9'
  }

  /** The number a string of digits denotes, leading zeros allowed. */
  function ValueOf(s: string): nat
    requires Digits(s)
  {
    if s == "" then 0 else ValueOf(s[..|s| - 1]) * 10 + (s[|s| - 1] - '0') as nat
  }

  lemma {:induction false} DecimalValue(n: nat)
    ensures Digits(Decimal(n)) && ValueOf(Decimal(n)) == n
  {
    if n < 10 {
      assert Decimal(n)[..0] == "";
    } else {
      DecimalValue(n / 10);
      assert Decimal(n)[..|Decimal(n)| - 1] == Decimal(n / 10);
    }
  }

  lemma {:induction false} LeadingZeros(s: string, count: nat)
    requires Digits(s)
    ensures Digits(seq(count, _ => '0') + s) && ValueOf(seq(count, _ => '0') + s) == ValueOf(s)
    decreases |s|, count
  {
    var padded := seq(count, _ => '0') + s;
    if s != "" {
      LeadingZeros(s[..|s| - 1], count);
      assert padded[..|padded| - 1] == seq(count, _ => '0') + s[..|s| - 1];
    } else if count > 0 {
      LeadingZeros(s, count - 1);
      assert padded[..|padded| - 1] == seq(count - 1, _ => '0') + s;
    }
  }

  /** The padded number can be read back, so padding merges no two numbers. */
  lemma PaddedValue(n: nat, width: nat)
    ensures Digits(PadZeros(Decimal(n), width)) && ValueOf(PadZeros(Decimal(n), width)) == n
  {
    DecimalValue(n);
    if |Decimal(n)| < width {
      LeadingZeros(Decimal(n), width - |Decimal(n)|);
    }
  }

  /** Whatever the two dates are, equal ids mean equal sequence numbers. */
  lemma LogIdInjective(date1: string, number1: nat, date2: string, number2: nat)
    requires FormatLogId(date1, number1) == FormatLogId(date2, number2)
    ensures date1 == date2 && number1 == number2
  {
    PaddedValue(number1, 6);
    PaddedValue(number2, 6);
    LastSplitUnique(date1, PadZeros(Decimal(number1), 6), date2, PadZeros(Decimal(number2), 6), '-');
  }

  /** One file per (id, kind). */
  lemma BodyPathInjective(dir: string, id1: string, kind1: BodyKind, id2: string, kind2: BodyKind)
    requires BodyPath(dir, id1, kind1) == BodyPath(dir, id2, kind2)
    ensures id1 == id2 && kind1 == kind2
  {
    var stem1 := dir + "/" + id1 + "." + KindName(kind1);
    var stem2 := dir + "/" + id2 + "." + KindName(kind2);
    assert BodyPath(dir, id1, kind1) == stem1 + ['.'] + "bin";
    assert BodyPath(dir, id2, kind2) == stem2 + ['.'] + "bin";
    LastSplitUnique(stem1, "bin", stem2, "bin", '.');
    LastSplitUnique(dir + "/" + id1, KindName(kind1), dir + "/" + id2, KindName(kind2), '.');
    assert (dir + "/" + id1)[|dir| + 1..] == id1 && (dir + "/" + id2)[|dir| + 1..] == id2;
  }
}
