/** What goes over the wire as text: signatures over texts, decimal numerals and separated fields,
    with the facts that make a text say only one thing. */
module Wire {

  /** Signatures are deterministic and bind their text; anything else is not a signature. */
  datatype Signature = Signed(signer: string, text: string) | Forged(bytes: string)

  predicate Verify(root: string, s: Signature, text: string) {
    s == Signed(root, text)
  }

  const DayMs := 86400000

  /** The pattern of release versions on both sides of a job. */
  predicate ValidVersion(s: string) {
    1 <= |s| <= 80 && forall c | c in s ::
      'a' <= c <= 'z' || 'A' <= c <= 'Z' || '0' <= c <= '9' || c in {'.', '+', '_', '-'}
  }

  function Digit(d: nat): char
    requires d < 10
  {
    ('0' as int + d) as char
  }

  function Decimal(n: nat): string {
    if n < 10 then [Digit(n)] else Decimal(n / 10) + [Digit(n % 10)]
  }

  /** `%d` and `strconv.Itoa`. */
  function Numeral(n: int): string {
    if n < 0 then "-" + Decimal(-n) else Decimal(n)
  }

  lemma {:induction false} DecimalIsDigits(n: nat)
    ensures Decimal(n) != "" && forall c | c in Decimal(n) :: '0' <= c <= '9'
  {
    if n >= 10 { DecimalIsDigits(n / 10); }
  }

  lemma {:induction false} DecimalInjective(m: nat, n: nat)
    requires Decimal(m) == Decimal(n)
    ensures m == n
  {
    DecimalIsDigits(m / 10);
    DecimalIsDigits(n / 10);
    var d := Decimal(m);
    if m >= 10 && n >= 10 {
      assert Decimal(m / 10) == d[..|d| - 1] == Decimal(n / 10);
      DecimalInjective(m / 10, n / 10);
      assert d[|d| - 1] == Digit(m % 10) == Digit(n % 10);
    }
  }

  lemma NumeralSign(n: int)
    ensures Numeral(n) != "" && (Numeral(n)[0] == '-' <==> n < 0)
  {
    if n >= 0 {
      DecimalIsDigits(n);
      assert Decimal(n)[0] in Decimal(n);
    }
  }

  lemma NumeralIsPlain(n: int)
    ensures '\n' !in Numeral(n)
  {
    DecimalIsDigits(if n < 0 then -n else n);
  }

  lemma NumeralInjective(m: int, n: int)
    requires Numeral(m) == Numeral(n)
    ensures m == n
  {
    NumeralSign(m);
    NumeralSign(n);
    if m < 0 {
      assert Numeral(m)[1..] == Decimal(-m) && Numeral(n)[1..] == Decimal(-n);
      DecimalInjective(-m, -n);
    } else {
      DecimalInjective(m, n);
    }
  }

  /** The first occurrence of a separator splits a text in only one way. */
  lemma {:induction false} SplitsOnce(sep: char, a: string, x: string, b: string, y: string)
    requires sep !in a && sep !in b && a + [sep] + x == b + [sep] + y
    ensures a == b && x == y
  {
    var s := a + [sep] + x;
    if a == "" || b == "" {
      assert s[0] == (a + [sep])[0] == (b + [sep])[0];
      assert s[1..] == x == y;
    } else {
      assert s[0] == a[0] == b[0];
      assert s[1..] == a[1..] + [sep] + x == b[1..] + [sep] + y;
      SplitsOnce(sep, a[1..], x, b[1..], y);
    }
  }

  /** A text read from its last separator splits in only one way. */
  lemma {:induction false} SplitsLast(sep: char, x: string, a: string, y: string, b: string)
    requires sep !in a && sep !in b && x + [sep] + a == y + [sep] + b
    ensures x == y && a == b
  {
    var s := x + [sep] + a;
    if a == "" || b == "" {
      assert s[|s| - 1] == ([sep] + a)[|a|] == ([sep] + b)[|b|];
      assert s[..|s| - 1] == x == y;
    } else {
      assert s[|s| - 1] == a[|a| - 1] == b[|b| - 1];
      assert s[..|s| - 1] == x + [sep] + a[..|a| - 1] == y + [sep] + b[..|b| - 1];
      SplitsLast(sep, x, a[..|a| - 1], y, b[..|b| - 1]);
      assert a == a[..|a| - 1] + [a[|a| - 1]] && b == b[..|b| - 1] + [b[|b| - 1]];
    }
  }

  function Fields(sep: char, fields: seq<string>): string {
    if fields == [] then "" else if |fields| == 1 then fields[0] else fields[0] + [sep] + Fields(sep, fields[1..])
  }

  predicate Free(sep: char, fields: seq<string>) {
    forall i | 0 <= i < |fields| :: sep !in fields[i]
  }

  /** Joined by a separator that occurs in none of them but perhaps the last, the fields of two texts
      with equally many fields can be told apart. */
  lemma {:induction false} FieldsInjective(sep: char, a: seq<string>, b: seq<string>)
    requires |a| == |b| > 0 && Free(sep, a[..|a| - 1]) && Free(sep, b[..|b| - 1]) && Fields(sep, a) == Fields(sep, b)
    ensures a == b
  {
    if |a| > 1 {
      assert a[..|a| - 1][0] == a[0] && b[..|b| - 1][0] == b[0];
      SplitsOnce(sep, a[0], Fields(sep, a[1..]), b[0], Fields(sep, b[1..]));
      forall i | 0 <= i < |a| - 2 ensures sep !in a[1..][i] && sep !in b[1..][i] {
        assert a[..|a| - 1][i + 1] == a[1..][i] && b[..|b| - 1][i + 1] == b[1..][i];
      }
      FieldsInjective(sep, a[1..], b[1..]);
      assert a == [a[0]] + a[1..] && b == [b[0]] + b[1..];
    } else {
      assert a == [a[0]] && b == [b[0]];
    }
  }
}
