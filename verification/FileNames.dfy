/** Names of intermediate files: mr-<map>-<reduce>, and reading them back. */
module FileNames {

  function Digit(d: nat): char
    requires d < 10
  {
    '0' + d as char
  }

  predicate IsDigit(c: char) {
    '0' <= c <= '9'
  }

  function DigitValue(c: char): nat
    requires IsDigit(c)
  {
    (c - '0') as nat
  }

  function Itoa(n: nat): string {
    if n < 10 then [Digit(n)] else Itoa(n / 10) + [Digit(n % 10)]
  }

  predicate IsNumeral(s: string) {
    s != "" && forall i | 0 <= i < |s| :: IsDigit(s[i])
  }

  /** strconv.Atoi on a plain numeral. */
  function Atoi(s: string): nat
    requires IsNumeral(s)
  {
    if |s| == 1 then DigitValue(s[0]) else 10 * Atoi(s[..|s| - 1]) + DigitValue(s[|s| - 1])
  }

  lemma {:induction false} AtoiItoa(n: nat)
    ensures IsNumeral(Itoa(n)) && Atoi(Itoa(n)) == n
  {
    if n >= 10 {
      AtoiItoa(n / 10);
      var s := Itoa(n);
      assert s[..|s| - 1] == Itoa(n / 10);
    }
  }

  /** strings.Split at dashes. */
  function Split(s: string): (parts: seq<string>)
    ensures |parts| >= 1
  {
    if s == "" then [""]
    else if s[0] == '-' then [""] + Split(s[1..])
    else
      var rest := Split(s[1..]);
      [[s[0]] + rest[0]] + rest[1..]
  }

  lemma {:induction false} SplitPlain(s: string)
    requires '-' !in s
    ensures Split(s) == [s]
  {
    if s != "" {
      SplitPlain(s[1..]);
      assert s == [s[0]] + s[1..];
    }
  }

  lemma {:induction false} SplitFirst(a: string, b: string)
    requires '-' !in a
    ensures Split(a + "-" + b) == [a] + Split(b)
  {
    var s := a + "-" + b;
    if a == "" {
      assert s[1..] == b;
    } else {
      SplitFirst(a[1..], b);
      assert s[1..] == a[1..] + "-" + b;
      assert a == [a[0]] + a[1..];
    }
  }

  function Name(m: nat, r: nat): string {
    "mr-" + Itoa(m) + "-" + Itoa(r)
  }

  predicate Parses(name: string) {
    |Split(name)| >= 3 && IsNumeral(Split(name)[2])
  }

  /** The reduce task a file is for, as the coordinator reads it. */
  function ReduceOf(name: string): nat
    requires Parses(name)
  {
    Atoi(Split(name)[2])
  }

  lemma NoDash(n: nat)
    ensures '-' !in Itoa(n)
  {
    AtoiItoa(n);
  }

  lemma NameSplits(m: nat, r: nat)
    ensures Split(Name(m, r)) == ["mr", Itoa(m), Itoa(r)]
  {
    NoDash(m);
    NoDash(r);
    SplitPlain(Itoa(r));
    SplitFirst(Itoa(m), Itoa(r));
    SplitFirst("mr", Itoa(m) + "-" + Itoa(r));
    assert Name(m, r) == "mr" + "-" + (Itoa(m) + "-" + Itoa(r));
  }

  /** A name parses back to its reduce task, and tells its map task too. */
  lemma NameParses(m: nat, r: nat)
    ensures Parses(Name(m, r)) && ReduceOf(Name(m, r)) == r
    ensures IsNumeral(Split(Name(m, r))[1]) && Atoi(Split(Name(m, r))[1]) == m
  {
    NameSplits(m, r);
    AtoiItoa(m);
    AtoiItoa(r);
  }

  lemma NameInjective(m: nat, r: nat, m': nat, r': nat)
    requires Name(m, r) == Name(m', r')
    ensures m == m' && r == r'
  {
    NameParses(m, r);
    NameParses(m', r');
  }
}
