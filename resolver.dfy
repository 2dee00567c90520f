/** The collision-free name resolver: a file keeps its own name in the
    destination folder when that name is free, and otherwise takes
    `stem(k)suffix` for the least counter `k >= 1` whose name is free. */
module Resolver {

  /** The character of one decimal digit. */
  function DigitChar(d: nat): char
    requires d < 10
  {
    ('0' as int + d) as char
  }

  /** The value of a decimal digit character (0 for any other character). */
  function DigitValue(c: char): nat
  {
    if '0' <= c <= '9' then c as int - '0' as int else 0
  }

  /** The decimal rendering of a counter, as string formatting of an integer
      gives it: most significant digit first, no leading zeros. */
  function Decimal(n: nat): (s: string)
    ensures 1 <= |s|
    ensures forall i :: 0 <= i < |s| ==> '0' <= s[i] <= '9'
    ensures |s| == 1 <==> n < 10
    ensures |s| > 1 ==> s[0] != '0'
    decreases n
  {
    if n < 10 then [DigitChar(n)] else Decimal(n / 10) + [DigitChar(n % 10)]
  }

  /** Reads a string of decimal digits back as a number. */
  function ParseDecimal(s: string): nat
    decreases |s|
  {
    if s == [] then 0 else 10 * ParseDecimal(s[..|s| - 1]) + DigitValue(s[|s| - 1])
  }

  /** Reading back a rendered counter gives the counter. */
  lemma {:induction false} ParseDecimalOfDecimal(n: nat)
    ensures ParseDecimal(Decimal(n)) == n
    decreases n
  {
    if n >= 10 {
      var s := Decimal(n);
      assert s[..|s| - 1] == Decimal(n / 10);
      ParseDecimalOfDecimal(n / 10);
    }
  }

  /** Two counters with the same rendering are equal. */
  lemma DecimalInjective(a: nat, b: nat)
    requires Decimal(a) == Decimal(b)
    ensures a == b
  {
    ParseDecimalOfDecimal(a);
    ParseDecimalOfDecimal(b);
  }

  /** The `k`-th candidate name: the stem, the counter in parentheses, the suffix. */
  function NumberedName(stem: string, k: nat, suffix: string): (r: string)
    ensures |r| == |stem| + |Decimal(k)| + 2 + |suffix|
    ensures r[..|stem|] == stem && r[|stem|] == '('
    ensures r[|r| - |suffix|..] == suffix && r[|r| - |suffix| - 1] == ')'
  {
    stem + "(" + Decimal(k) + ")" + suffix
  }

  /** Distinct counters give distinct candidate names. */
  lemma NumberedNameInjective(stem: string, suffix: string, j: nat, k: nat)
    requires NumberedName(stem, j, suffix) == NumberedName(stem, k, suffix)
    ensures j == k
  {
    var a, b := NumberedName(stem, j, suffix), NumberedName(stem, k, suffix);
    var p := |stem| + 1;
    assert a == (stem + "(") + Decimal(j) + (")" + suffix);
    assert b == (stem + "(") + Decimal(k) + (")" + suffix);
    assert |Decimal(j)| == |Decimal(k)|;
    assert Decimal(j) == a[p..p + |Decimal(j)|];
    assert Decimal(k) == b[p..p + |Decimal(k)|];
    DecimalInjective(j, k);
  }

  /** The candidate names for the counters `1..n`. */
  function Numbered(stem: string, suffix: string, n: nat): set<string>
    decreases n
  {
    if n == 0 then {} else Numbered(stem, suffix, n - 1) + {NumberedName(stem, n, suffix)}
  }

  /** A later candidate is none of the earlier ones. */
  lemma {:induction false} LaterCandidateIsNew(stem: string, suffix: string, n: nat, k: nat)
    requires n < k
    ensures NumberedName(stem, k, suffix) !in Numbered(stem, suffix, n)
    decreases n
  {
    if n > 0 {
      LaterCandidateIsNew(stem, suffix, n - 1, k);
      if NumberedName(stem, k, suffix) == NumberedName(stem, n, suffix) {
        NumberedNameInjective(stem, suffix, k, n);
      }
    }
  }

  /** The first `n` candidates are `n` distinct names. */
  lemma {:induction false} NumberedSize(stem: string, suffix: string, n: nat)
    ensures |Numbered(stem, suffix, n)| == n
    decreases n
  {
    if n > 0 {
      NumberedSize(stem, suffix, n - 1);
      LaterCandidateIsNew(stem, suffix, n - 1, n);
    }
  }

  /** If the first `n` candidates are all taken, the folder holds at least `n`
      names: the bound that makes the counter loop stop. */
  lemma {:induction false} TakenCandidatesBound(taken: set<string>, stem: string, suffix: string, n: nat)
    requires forall j :: 1 <= j <= n ==> NumberedName(stem, j, suffix) in taken
    ensures n <= |taken|
  {
    var cs := Numbered(stem, suffix, n);
    NumberedSize(stem, suffix, n);
    NumberedWithin(taken, stem, suffix, n);
    assert taken == cs + (taken - cs);
  }

  /** The first `n` candidates, all taken, form a subset of the taken names. */
  lemma {:induction false} NumberedWithin(taken: set<string>, stem: string, suffix: string, n: nat)
    requires forall j :: 1 <= j <= n ==> NumberedName(stem, j, suffix) in taken
    ensures Numbered(stem, suffix, n) <= taken
    decreases n
  {
    if n > 0 {
      NumberedWithin(taken, stem, suffix, n - 1);
    }
  }

  /** What the resolver promises: the destination name `target` is free; it is
      the file's own name when that is free, and otherwise the candidate for the
      least counter whose name is free, every earlier candidate being taken. */
  ghost predicate IsResolution(taken: set<string>, name: string, stem: string, suffix: string, target: string)
  {
    target !in taken &&
    (name !in taken ==> target == name) &&
    (name in taken ==>
      exists k :: 1 <= k && target == NumberedName(stem, k, suffix) &&
        forall j :: 1 <= j < k ==> NumberedName(stem, j, suffix) in taken)
  }

  /** The resolution is unique: the resolver is deterministic. */
  lemma ResolutionUnique(taken: set<string>, name: string, stem: string, suffix: string, t1: string, t2: string)
    requires IsResolution(taken, name, stem, suffix, t1)
    requires IsResolution(taken, name, stem, suffix, t2)
    ensures t1 == t2
  {
    if name in taken {
      var k1 :| 1 <= k1 && t1 == NumberedName(stem, k1, suffix) &&
        forall j :: 1 <= j < k1 ==> NumberedName(stem, j, suffix) in taken;
      var k2 :| 1 <= k2 && t2 == NumberedName(stem, k2, suffix) &&
        forall j :: 1 <= j < k2 ==> NumberedName(stem, j, suffix) in taken;
      assert !(k1 < k2) && !(k2 < k1);
    }
  }

  /** The first free candidate from counter `k` on, every earlier one being taken. */
  function FirstFree(taken: set<string>, stem: string, suffix: string, k: nat): (r: string)
    requires 1 <= k
    requires forall j :: 1 <= j < k ==> NumberedName(stem, j, suffix) in taken
    ensures r !in taken
    decreases |taken| + 1 - k
  {
    if NumberedName(stem, k, suffix) !in taken then NumberedName(stem, k, suffix)
    else
      TakenCandidatesBound(taken, stem, suffix, k);
      FirstFree(taken, stem, suffix, k + 1)
  }

  /** The destination name the resolver computes: the file's own name when it
      is free, else the first free numbered candidate. */
  function Resolution(taken: set<string>, name: string, stem: string, suffix: string): (r: string)
    ensures r !in taken
    ensures name !in taken ==> r == name
  {
    if name !in taken then name else FirstFree(taken, stem, suffix, 1)
  }

  /** The first free candidate is numbered from `k` on, and every candidate
      before it is taken. */
  lemma {:induction false} FirstFreeIsFirst(taken: set<string>, stem: string, suffix: string, k: nat)
    requires 1 <= k
    requires forall j :: 1 <= j < k ==> NumberedName(stem, j, suffix) in taken
    ensures exists m :: k <= m && FirstFree(taken, stem, suffix, k) == NumberedName(stem, m, suffix) &&
              forall j :: 1 <= j < m ==> NumberedName(stem, j, suffix) in taken
    decreases |taken| + 1 - k
  {
    if NumberedName(stem, k, suffix) !in taken {
      assert FirstFree(taken, stem, suffix, k) == NumberedName(stem, k, suffix);
    } else {
      TakenCandidatesBound(taken, stem, suffix, k);
      FirstFreeIsFirst(taken, stem, suffix, k + 1);
    }
  }

  /** The computed destination name meets the resolver's promise. */
  lemma ResolutionIsResolution(taken: set<string>, name: string, stem: string, suffix: string)
    ensures IsResolution(taken, name, stem, suffix, Resolution(taken, name, stem, suffix))
  {
    if name in taken {
      FirstFreeIsFirst(taken, stem, suffix, 1);
    }
  }

  /** Finds the destination name of a file in a folder that already holds the
      names `taken`, trying the file's own name and then the numbered candidates
      in counter order. */
  method ResolveName(taken: set<string>, name: string, stem: string, suffix: string) returns (target: string)
    ensures target == Resolution(taken, name, stem, suffix)
    ensures IsResolution(taken, name, stem, suffix, target)
  {
    target := name;
    var counter := 1;
    while target in taken
      invariant counter >= 1
      invariant counter == 1 ==> target == name
      invariant counter > 1 ==> name in taken && target == NumberedName(stem, counter - 1, suffix)
      invariant forall j :: 1 <= j < counter - 1 ==> NumberedName(stem, j, suffix) in taken
      invariant counter > 1 ==> Resolution(taken, name, stem, suffix) == FirstFree(taken, stem, suffix, counter - 1)
      decreases |taken| + 1 - counter
    {
      TakenCandidatesBound(taken, stem, suffix, counter - 1);
      target := NumberedName(stem, counter, suffix);
      counter := counter + 1;
    }
    ResolutionIsResolution(taken, name, stem, suffix);
  }

  /** A folder holding `a.txt` sends a second `a.txt` to `a(1).txt`. */
  lemma FirstCollisionExample()
    ensures IsResolution({"a.txt"}, "a.txt", "a", ".txt", "a(1).txt")
  {
    assert Decimal(1) == "1";
    assert NumberedName("a", 1, ".txt") == "a(1).txt";
  }

  /** A folder holding `a.txt` and `a(1).txt` sends a third `a.txt` to `a(2).txt`. */
  lemma SecondCollisionExample()
    ensures IsResolution({"a.txt", "a(1).txt"}, "a.txt", "a", ".txt", "a(2).txt")
  {
    assert Decimal(1) == "1" && Decimal(2) == "2";
    assert NumberedName("a", 1, ".txt") == "a(1).txt";
    assert NumberedName("a", 2, ".txt") == "a(2).txt";
    assert "a(2).txt" != "a(1).txt" by {
      assert "a(2).txt"[2] != "a(1).txt"[2];
    }
  }
}
