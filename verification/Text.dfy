/** The string operations of the host language that several components share:
    whitespace stripping, decimal printing and splitting on a separator. */
module Text {

  datatype Option<+T> = None | Some(value: T)

  /** Induction over the numbers up to `k`, for a property given as a function. */
  lemma {:induction false} Upward(p: nat -> bool, k: nat)
    requires p(0) && forall j: nat | j < k :: p(j) ==> p(j + 1)
    ensures p(k)
  {
    if k > 0 {
      Upward(p, k - 1);
      assert p(k - 1 + 1);
    }
  }

  // ---------- sequences ----------

  lemma Assoc<T>(a: seq<T>, b: seq<T>, c: seq<T>)
    ensures a + (b + c) == (a + b) + c
  {
  }

  lemma Unit<T>(a: seq<T>)
    ensures a + [] == a && [] + a == a
  {
  }

  /** A non-empty sequence is its front and its last element. */
  lemma Snoc<T>(a: seq<T>)
    requires a != []
    ensures a[..|a| - 1] + [a[|a| - 1]] == a
  {
  }

  /** The rest of a concatenation whose first part is not empty. */
  lemma RestOfConcat<T>(a: seq<T>, b: seq<T>)
    requires a != []
    ensures (a + b)[1..] == a[1..] + b && (a + b)[0] == a[0]
  {
  }

  /** The front of a concatenation whose second part is not empty. */
  lemma FrontOfConcat<T>(a: seq<T>, b: seq<T>)
    requires b != []
    ensures (a + b)[..|a + b| - 1] == a + b[..|b| - 1]
    ensures (a + b)[|a + b| - 1] == b[|b| - 1]
  {
  }

  // ---------- strip ----------

  /** The characters that `str.strip()` removes. */
  predicate IsSpace(c: char) {
    var n := c as int;
    || 0x09 <= n <= 0x0D || 0x1C <= n <= 0x20 || n == 0x85 || n == 0xA0 || n == 0x1680
    || 0x2000 <= n <= 0x200A || n == 0x2028 || n == 0x2029 || n == 0x202F || n == 0x205F || n == 0x3000
  }

  function StripLeft(s: string): string {
    if s != "" && IsSpace(s[0]) then StripLeft(s[1..]) else s
  }

  function StripRight(s: string): string {
    if s != "" && IsSpace(s[|s| - 1]) then StripRight(s[..|s| - 1]) else s
  }

  function Strip(s: string): string {
    StripRight(StripLeft(s))
  }

  /** `s.lower()` where it can matter to a comparison with ASCII words. */
  function Lower(s: string): string {
    seq(|s|, i requires 0 <= i < |s| => if 'A' <= s[i] <= 'Z' then (s[i] as int + 32) as char
                                        else if s[i] == '\U{212A}' then 'k' else s[i])
  }

  // ---------- order ----------

  /** The order of strings: by the first character that differs, a prefix first. */
  predicate Leq(a: string, b: string) {
    a == "" || (b != "" && (a[0] < b[0] || (a[0] == b[0] && Leq(a[1..], b[1..]))))
  }

  lemma {:induction false} LeqTotal(a: string, b: string)
    ensures Leq(a, b) || Leq(b, a)
  {
    if a != "" && b != "" {
      LeqTotal(a[1..], b[1..]);
    }
  }

  lemma {:induction false} LeqBoth(a: string, b: string)
    requires Leq(a, b) && Leq(b, a)
    ensures a == b
  {
    if a != "" {
      LeqBoth(a[1..], b[1..]);
      assert a == [a[0]] + a[1..] && b == [b[0]] + b[1..];
    }
  }

  lemma {:induction false} LeqTrans(a: string, b: string, c: string)
    requires Leq(a, b) && Leq(b, c)
    ensures Leq(a, c)
  {
    if a != "" && a[0] == b[0] == c[0] {
      LeqTrans(a[1..], b[1..], c[1..]);
    }
  }

  // ---------- decimal numbers ----------

  predicate IsDigit(c: char) {
    '0' <= c <= '9'
  }

  predicate AllDigits(s: string) {
    forall i | 0 <= i < |s| :: IsDigit(s[i])
  }

  function Digit(d: nat): char
    requires d < 10
  {
    '0' + (d as char)
  }

  /** `str(n)` for a non-negative integer. */
  function Decimal(n: nat): (s: string)
    ensures s != "" && AllDigits(s)
  {
    if n < 10 then [Digit(n)] else Decimal(n / 10) + [Digit(n % 10)]
  }

  /** `int(s)` for a string of ASCII digits. */
  function Value(s: string): nat
    requires AllDigits(s)
  {
    if s == "" then 0 else 10 * Value(s[..|s| - 1]) + (s[|s| - 1] as int - '0' as int)
  }

  lemma {:induction false} DecimalValue(n: nat)
    ensures Value(Decimal(n)) == n
  {
    if n < 10 {
      assert Decimal(n)[..0] == "";
    } else {
      DecimalValue(n / 10);
      assert Decimal(n)[..|Decimal(n)| - 1] == Decimal(n / 10);
    }
  }

  lemma DecimalInjective(m: nat, n: nat)
    requires Decimal(m) == Decimal(n)
    ensures m == n
  {
    DecimalValue(m);
    DecimalValue(n);
  }

  /** Leading zeros change the text, not the number. */
  lemma {:induction false} LeadingZero(s: string)
    requires AllDigits(s)
    ensures Value("0" + s) == Value(s)
  {
    var t := "0" + s;
    if s == "" {
      assert t[..0] == "";
    } else {
      LeadingZero(s[..|s| - 1]);
      assert t[..|t| - 1] == "0" + s[..|s| - 1];
    }
  }

  // ---------- split and join ----------

  /** `sep.join(parts)`. */
  function Join(parts: seq<string>, sep: char): string {
    if parts == [] then ""
    else if |parts| == 1 then parts[0]
    else parts[0] + [sep] + Join(parts[1..], sep)
  }

  /** `s.split(sep)`: always at least one part. */
  function Split(s: string, sep: char): (parts: seq<string>)
    ensures parts != []
  {
    if s == "" then [""]
    else
      var rest := Split(s[1..], sep);
      if s[0] == sep then [""] + rest else [[s[0]] + rest[0]] + rest[1..]
  }

  predicate SepFree(parts: seq<string>, sep: char) {
    forall i | 0 <= i < |parts| :: sep !in parts[i]
  }

  lemma JoinPrepend(c: char, parts: seq<string>, sep: char)
    requires parts != []
    ensures Join([[c] + parts[0]] + parts[1..], sep) == [c] + Join(parts, sep)
    ensures Join([""] + parts, sep) == [sep] + Join(parts, sep)
  {
    var longer := [[c] + parts[0]] + parts[1..];
    assert longer[1..] == parts[1..] && ([""] + parts)[1..] == parts;
    Unit([sep]);
    if |parts| > 1 {
      Assoc([c], parts[0], [sep]);
      Assoc([c], parts[0] + [sep], Join(parts[1..], sep));
    }
  }

  lemma {:induction false} SplitParts(s: string, sep: char)
    ensures SepFree(Split(s, sep), sep)
    ensures Join(Split(s, sep), sep) == s
  {
    if s != "" {
      SplitParts(s[1..], sep);
      JoinPrepend(s[0], Split(s[1..], sep), sep);
      assert [s[0]] + s[1..] == s;
    }
  }

  lemma {:induction false} SplitPlain(s: string, sep: char)
    requires sep !in s
    ensures Split(s, sep) == [s]
  {
    if s != "" {
      SplitPlain(s[1..], sep);
      assert [s[0]] + s[1..] == s;
    }
  }

  lemma {:induction false} SplitCons(part: string, sep: char, rest: string)
    requires sep !in part
    ensures Split(part + [sep] + rest, sep) == [part] + Split(rest, sep)
  {
    var s := part + [sep] + rest;
    if part == "" {
      assert s[1..] == rest;
    } else {
      SplitCons(part[1..], sep, rest);
      assert s[1..] == part[1..] + [sep] + rest;
      assert [s[0]] + part[1..] == part;
    }
  }

  lemma {:induction false} SplitJoin(parts: seq<string>, sep: char)
    requires parts != [] && SepFree(parts, sep)
    ensures Split(Join(parts, sep), sep) == parts
  {
    if |parts| == 1 {
      SplitPlain(parts[0], sep);
    } else {
      SplitJoin(parts[1..], sep);
      SplitCons(parts[0], sep, Join(parts[1..], sep));
    }
  }

  /** Splitting at a separator splits the list of parts. */
  lemma {:induction false} SplitConcat(left: string, sep: char, right: string)
    ensures Split(left + [sep] + right, sep) == Split(left, sep) + Split(right, sep)
  {
    var s := left + [sep] + right;
    if left == "" {
      assert s[1..] == right;
    } else {
      SplitConcat(left[1..], sep, right);
      assert s[1..] == left[1..] + [sep] + right;
      var a, b := Split(left[1..], sep), Split(right, sep);
      assert Split(s[1..], sep) == a + b;
      if left[0] == sep {
        Assoc([""], a, b);
      } else {
        RestOfConcat(a, b);
        Assoc([[left[0]] + a[0]], a[1..], b);
      }
    }
  }

  lemma {:induction false} JoinSnoc(parts: seq<string>, sep: char, last: string)
    requires parts != []
    ensures Join(parts + [last], sep) == Join(parts, sep) + [sep] + last
  {
    var all := parts + [last];
    if |parts| == 1 {
      assert all[1..] == [last];
    } else {
      JoinSnoc(parts[1..], sep, last);
      assert all[1..] == parts[1..] + [last];
    }
  }

  /** What precedes the last separator is settled; only the last part meets what follows. */
  lemma SplitResume(a: string, sep: char, b: string)
    ensures var parts := Split(a, sep);
            Split(a + b, sep) == parts[..|parts| - 1] + Split(parts[|parts| - 1] + b, sep)
  {
    var parts := Split(a, sep);
    var front, last := parts[..|parts| - 1], parts[|parts| - 1];
    SplitParts(a, sep);
    Snoc(parts);
    if front == [] {
      Unit(Split(last + b, sep));
    } else {
      JoinSnoc(front, sep, last);
      Assoc(Join(front, sep) + [sep], last, b);
      SplitConcat(Join(front, sep), sep, last + b);
      SplitJoin(front, sep);
    }
  }

  /** The first position of `c` in a text that contains it. */
  function IndexOf(s: string, c: char): (i: nat)
    requires c in s
    ensures i < |s| && s[i] == c && c !in s[..i]
  {
    if s[0] == c then 0 else
      var i := 1 + IndexOf(s[1..], c);
      assert s[..i] == [s[0]] + s[1..][..i - 1];
      i
  }
}
