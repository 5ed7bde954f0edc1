/**
 C names of at most 31 characters: sanitising, steering clear of keywords and reserved names,
 and numbering until the name is free.
 */
module NameAllocator {
  import opened Sequences
  import opened Options
  import opened Keywords
  import Integers

  const MAX_NAME: nat := 31
  const BUFFER: nat := 255
  const INT_MAX: nat := 0x7FFF_FFFF

  // ----- From a wish to a name -----

  predicate IsLetter(c: char) {
    'a' <= c <= 'z' || 'A' <= c <= 'Z'
  }

  predicate IsNameChar(c: char) {
    IsLetter(c) || '0' <= c <= '9' || c == '_'
  }

  function Take(s: string, n: nat): (r: string)
    ensures |r| <= n
  {
    if |s| <= n then s else s[..n]
  }

  function Sanitised(s: string): string {
    var t := Take(s, BUFFER);
    seq(|t|, i requires 0 <= i < |t| => if IsNameChar(t[i]) then t[i] else '_')
  }

  predicate StartsWith(s: string, p: string) {
    |p| <= |s| && s[..|p|] == p
  }

  const INTERNAL_PREFIXES: seq<string> := [
    "__tmp_", "__return_", "__bootstrap_", "__zig_label_", "__loop_", "__for_", "__make_slice_", "__implicit_ret",
    "__rz_"
  ]

  const INTERNAL_NAMES: seq<string> := [
    "Arena", "ArenaBlock", "zig_default_arena", "arena_create", "arena_alloc", "arena_reset", "arena_destroy",
    "arena_alloc_default", "arena_free"
  ]

  predicate IsInternal(s: string) {
    s in INTERNAL_NAMES || exists p <- INTERNAL_PREFIXES :: StartsWith(s, p)
  }

  predicate IsReserved(s: string) {
    |s| >= 2 && s[0] == '_' && ('A' <= s[1] <= 'Z' || s[1] == '_')
  }

  predicate NeedsPrefix(base: string) {
    (base != "" && '0' <= base[0] <= '9') || base in KEYWORDS || IsReserved(base)
  }

  function Prefixed(base: string): string {
    if !NeedsPrefix(base) then base else if base[..1] == "_" then "z" + base else "z_" + base
  }

  /** The name wanted for a sanitised wish, before numbering. */
  function Mangled(base: string): (r: string)
    ensures |r| <= MAX_NAME
  {
    Take(Prefixed(base), MAX_NAME)
  }

  function Suffix(k: nat): string {
    "_" + Integers.Decimal(k)
  }

  /** The wanted name, shortened to make room for `_k`. */
  function Numbered(m: string, k: nat): string
    requires |Suffix(k)| <= MAX_NAME
  {
    (if |m| + |Suffix(k)| > MAX_NAME then m[..MAX_NAME - |Suffix(k)|] else m) + Suffix(k)
  }

  // ----- The names are good ones -----

  const SMALL: string := "abcdefghijklmnopqrstuvwxyz"
  const CAPITAL: string := "ABCDEFGHIJKLMNOPQRSTUVWXYZ"
  const DIGITS: string := "0123456789"

  /** An identifier by section 6.1.2 of ISO/IEC 9899:1990. */
  predicate IsIdentifier(s: string) {
    s != "" && s[0] !in DIGITS && forall i :: 0 <= i < |s| ==> s[i] in SMALL + CAPITAL + DIGITS + "_"
  }

  /** Reserved by section 7.1.3: an underscore, then another one or an upper-case letter. */
  ghost predicate ReservedForC(s: string) {
    StartsWith(s, "__") || exists c: char :: 'A' <= c <= 'Z' && StartsWith(s, ['_', c])
  }

  /** A name C89 takes: an identifier of at most 31 significant characters, not a keyword, not reserved. */
  ghost predicate Good(s: string) {
    IsIdentifier(s) && |s| <= 31 && !IsCKeyword(s) && !ReservedForC(s)
  }

  /** The same in the allocator's own terms. */
  predicate Acceptable(s: string) {
    s != "" && !('0' <= s[0] <= '9') && Clean(s) && |s| <= MAX_NAME && s !in KEYWORDS && !IsReserved(s)
  }

  lemma GoodIff(s: string)
    ensures Good(s) <==> Acceptable(s)
  {
    hide KEYWORDS, IsCKeyword;
    TableIsC(s);
    ReservedIff(s);
    forall i | 0 <= i < |s| ensures IsNameChar(s[i]) <==> s[i] in SMALL + CAPITAL + DIGITS + "_" {
      NameCharIff(s[i]);
    }
    if s != "" {
      DigitIff(s[0]);
    }
  }

  lemma ReservedIff(s: string)
    ensures ReservedForC(s) <==> IsReserved(s)
  {
    if IsReserved(s) && s[1] != '_' {
      assert s[..2] == ['_', s[1]];
      assert StartsWith(s, ['_', s[1]]);
    }
    if IsReserved(s) && s[1] == '_' {
      assert s[..2] == "__";
    }
    if StartsWith(s, "__") {
      assert s[0] == s[..2][0] && s[1] == s[..2][1];
    }
    if c: char :| 'A' <= c <= 'Z' && StartsWith(s, ['_', c]) {
      assert s[0] == s[..2][0] && s[1] == s[..2][1];
    }
  }

  lemma DigitIff(c: char)
    ensures '0' <= c <= '9' <==> c in DIGITS
  {
    if '0' <= c <= '9' {
      assert DIGITS[c as int - '0' as int] == c;
    }
  }

  lemma NameCharIff(c: char)
    ensures IsNameChar(c) <==> c in SMALL + CAPITAL + DIGITS + "_"
  {
    DigitIff(c);
    LetterIff(c);
  }

  lemma LetterIff(c: char)
    ensures 'a' <= c <= 'z' <==> c in SMALL
    ensures 'A' <= c <= 'Z' <==> c in CAPITAL
  {
    if 'a' <= c <= 'z' {
      SmallAt(c as int - 'a' as int);
    } else if 'A' <= c <= 'Z' {
      CapitalAt(c as int - 'A' as int);
    }
    if i :| 0 <= i < |SMALL| && SMALL[i] == c {
      SmallAt(i);
    }
    if i :| 0 <= i < |CAPITAL| && CAPITAL[i] == c {
      CapitalAt(i);
    }
  }

  lemma SmallAt(i: nat)
    requires i < 26
    ensures SMALL[i] == 'a' + i as char
  {
    if i < 13 {
      assert i in {0, 1, 2, 3, 4, 5, 6, 7, 8, 9, 10, 11, 12};
    } else {
      assert i in {13, 14, 15, 16, 17, 18, 19, 20, 21, 22, 23, 24, 25};
    }
  }

  lemma CapitalAt(i: nat)
    requires i < 26
    ensures CAPITAL[i] == 'A' + i as char
  {
    if i < 13 {
      assert i in {0, 1, 2, 3, 4, 5, 6, 7, 8, 9, 10, 11, 12};
    } else {
      assert i in {13, 14, 15, 16, 17, 18, 19, 20, 21, 22, 23, 24, 25};
    }
  }

  predicate Clean(s: string) {
    forall i :: 0 <= i < |s| ==> IsNameChar(s[i])
  }

  lemma SanitisedIsClean(s: string)
    ensures Clean(Sanitised(s)) && |Sanitised(s)| == |Take(s, BUFFER)|
  {
  }

  lemma NotKeyword(s: string)
    requires |s| > 8 || (s != "" && s[0] == 'z') || '_' in s
    ensures s !in KEYWORDS
  {
    hide KEYWORDS;
    if s in KEYWORDS {
      KeywordShape(s);
    }
  }

  lemma MangledGood(base: string)
    requires Clean(base)
    ensures Acceptable(Mangled(base)) <==> base != ""
    ensures base != "" ==> Mangled(base) != ""
    ensures Mangled(base) == "_" <==> base == "_"
    ensures !IsReserved(Mangled(base)) && Clean(Mangled(base))
  {
    hide KEYWORDS;
    var p, m := Prefixed(base), Mangled(base);
    if base == "_" {
      NotKeyword(base);
    }
    if base != "" {
      assert m[0] == p[0] && (|p| > 1 ==> m[1] == p[1]);
      if NeedsPrefix(base) {
        assert m[0] == 'z';
        NotKeyword(m);
      } else if |base| > MAX_NAME {
        NotKeyword(m);
      }
    } else {
      EmptyIsNoKeyword();
    }
  }

  lemma EmptyIsNoKeyword()
    ensures "" !in KEYWORDS
  {
    hide KEYWORDS;
    if "" in KEYWORDS {
      KeywordShape("");
    }
  }

  lemma SuffixShape(k: nat)
    ensures |Suffix(k)| >= 2 && Suffix(k)[0] == '_'
    ensures forall i :: 1 <= i < |Suffix(k)| ==> '0' <= Suffix(k)[i] <= '9'
  {
    Integers.DecimalIsDigits(k);
    var d := Integers.Decimal(k);
    forall i | 1 <= i < |Suffix(k)| ensures '0' <= Suffix(k)[i] <= '9' {
      assert Suffix(k)[i] == d[i - 1];
    }
  }

  lemma SuffixRoom(k: nat)
    requires k <= INT_MAX
    ensures |Suffix(k)| <= 11
  {
    assert Integers.Power10(10) == 10_000_000_000 by {
      Powers();
    }
    Integers.DecimalLength(k, 10);
  }

  lemma Powers()
    ensures Integers.Power10(10) == 10_000_000_000
  {
    assert Integers.Power10(2) == 100;
    assert Integers.Power10(4) == 10_000;
    assert Integers.Power10(6) == 1_000_000;
    assert Integers.Power10(8) == 100_000_000;
  }

  /** Numbering spoils exactly the name `_`, whose numbered forms are reserved. */
  lemma NumberedGood(m: string, k: nat)
    requires Clean(m) && |m| <= MAX_NAME && !IsReserved(m) && (m != "" ==> !('0' <= m[0] <= '9')) && k <= INT_MAX
    ensures |Suffix(k)| <= MAX_NAME && (Acceptable(Numbered(m, k)) <==> m != "_")
  {
    hide KEYWORDS, Suffix;
    SuffixRoom(k);
    SuffixShape(k);
    var s := Suffix(k);
    var keep := if |m| + |s| > MAX_NAME then MAX_NAME - |s| else |m|;
    var r := Numbered(m, k);
    assert r == m[..keep] + s;
    assert r[keep] == '_';
    NotKeyword(r);
    assert Clean(r) by {
      forall i | 0 <= i < |r| ensures IsNameChar(r[i]) {
        assert r[i] == if i < keep then m[i] else s[i - keep];
      }
    }
    assert keep > 0 ==> r[0] == m[0];
    assert keep > 1 ==> r[1] == m[1];
    assert keep == 1 ==> r[1] == '_' && |m| == 1;
    assert keep == 0 ==> r == s;
  }

  // ----- Numbered names differ -----

  lemma {:induction false} DecimalInjective(j: nat, k: nat)
    requires Integers.Decimal(j) == Integers.Decimal(k)
    ensures j == k
  {
    Integers.DecimalRoundTrip(j, "");
    Integers.DecimalRoundTrip(k, "");
    assert Integers.Decimal(j) + "" == Integers.Decimal(k) + "";
  }

  lemma NumberedInjective(m: string, j: nat, k: nat)
    requires |Suffix(j)| <= MAX_NAME && |Suffix(k)| <= MAX_NAME
    requires Numbered(m, j) == Numbered(m, k)
    ensures j == k
  {
    hide Suffix;
    SuffixShape(j);
    SuffixShape(k);
    var r := Numbered(m, j);
    var a, b := |r| - |Suffix(j)|, |r| - |Suffix(k)|;
    assert r[a..] == Suffix(j) && r[b..] == Suffix(k);
    assert r[a] == '_' && r[b] == '_';
    assert forall i :: a < i < |r| ==> r[i] == Suffix(j)[i - a];
    assert forall i :: b < i < |r| ==> r[i] == Suffix(k)[i - b];
    assert a == b;
    SuffixInjective(j, k);
  }

  lemma SuffixInjective(j: nat, k: nat)
    requires Suffix(j) == Suffix(k)
    ensures j == k
  {
    assert Suffix(j)[1..] == Integers.Decimal(j) && Suffix(k)[1..] == Integers.Decimal(k);
    DecimalInjective(j, k);
  }

  /** The first `n` numbered names. */
  function Tried(m: string, n: nat): (s: seq<string>)
    requires n <= INT_MAX
    ensures |s| == n
  {
    if n == 0 then [] else (SuffixRoom(n); Tried(m, n - 1) + [Numbered(m, n)])
  }

  lemma {:induction false} TriedAt(m: string, n: nat)
    requires n <= INT_MAX
    ensures forall i: nat :: 1 <= i <= n ==> |Suffix(i)| <= MAX_NAME && Tried(m, n)[i - 1] == Numbered(m, i)
  {
    hide Numbered, Suffix;
    if n > 0 {
      TriedAt(m, n - 1);
      SuffixRoom(n);
    }
  }

  lemma TriedDistinct(m: string, n: nat)
    requires n <= INT_MAX
    ensures Distinct(Tried(m, n))
  {
    hide Numbered, Suffix, Tried;
    TriedAt(m, n);
    forall i, j | 0 <= i < j < n ensures Tried(m, n)[i] != Tried(m, n)[j] {
      assert Tried(m, n)[i + 1 - 1] == Numbered(m, i + 1) && Tried(m, n)[j + 1 - 1] == Numbered(m, j + 1);
      if Numbered(m, i + 1) == Numbered(m, j + 1) {
        NumberedInjective(m, i + 1, j + 1);
      }
    }
  }

  /** If the first `n` numbered names are all taken, at least `n` names are. */
  lemma ProbesAreFew(m: string, n: nat, taken: seq<string>)
    requires n <= INT_MAX && forall x <- Tried(m, n) :: x in taken
    ensures n <= |taken|
  {
    hide Tried;
    TriedDistinct(m, n);
    ElementsSize(Tried(m, n));
    ElementsSize(taken);
    var a, b := Elements(Tried(m, n)), Elements(taken);
    assert a <= b;
    assert b == a + (b - a);
  }

  // ----- Internal names stay apart -----

  /** The start of every internal prefix. */
  predicate LooksInternal(s: string) {
    |s| >= 3 && s[0] == '_' && s[1] == '_' && IsLetter(s[2])
  }

  lemma InternalPrefixShape(p: string)
    requires p in INTERNAL_PREFIXES
    ensures 3 <= |p| <= 14 && LooksInternal(p)
  {
  }

  lemma InternalNameShape(s: string)
    requires s in INTERNAL_NAMES
    ensures 5 <= |s| <= 19 && IsLetter(s[0]) && IsLetter(s[|s| - 1]) && (s[0] == 'z' ==> s[1] == 'i')
  {
  }

  lemma InternalShape(s: string)
    requires IsInternal(s)
    ensures s in INTERNAL_NAMES || LooksInternal(s)
  {
    hide INTERNAL_NAMES, INTERNAL_PREFIXES;
    if s !in INTERNAL_NAMES {
      var p :| p in INTERNAL_PREFIXES && StartsWith(s, p);
      InternalPrefixShape(p);
      assert p[0] == s[0] && p[1] == s[1] && p[2] == s[2];
    }
  }

  /** Shortening keeps a name internal. */
  lemma InternalTruncated(s: string)
    requires IsInternal(s)
    ensures IsInternal(Take(s, MAX_NAME))
  {
    hide INTERNAL_NAMES, INTERNAL_PREFIXES;
    if s in INTERNAL_NAMES {
      InternalNameShape(s);
    } else {
      var p :| p in INTERNAL_PREFIXES && StartsWith(s, p);
      InternalPrefixShape(p);
      assert Take(s, MAX_NAME)[..|p|] == s[..|p|];
    }
  }

  lemma MangledNotInternal(base: string)
    requires Clean(base) && !IsInternal(base)
    ensures !IsInternal(Mangled(base))
  {
    hide INTERNAL_NAMES, INTERNAL_PREFIXES, KEYWORDS, IsInternal;
    MangledGood(base);
    var m := Mangled(base);
    if IsInternal(m) {
      InternalShape(m);
      if m in INTERNAL_NAMES {
        InternalNameShape(m);
      }
    }
  }

  lemma NumberedNotInternal(m: string, k: nat)
    requires Clean(m) && |m| <= MAX_NAME && !IsReserved(m) && k <= INT_MAX
    ensures |Suffix(k)| <= MAX_NAME && !IsInternal(Numbered(m, k))
  {
    hide INTERNAL_NAMES, INTERNAL_PREFIXES, IsInternal, Suffix;
    SuffixRoom(k);
    SuffixShape(k);
    var r, s := Numbered(m, k), Suffix(k);
    var keep := |r| - |s|;
    assert r[keep..] == s && r[..keep] == m[..keep];
    assert r[|r| - 1] == s[|s| - 1];
    assert keep >= 1 ==> r[0] == m[0];
    assert keep >= 2 ==> r[1] == m[1];
    assert keep == 1 ==> r[2] == s[1];
    assert keep == 0 ==> r[1] == s[1];
    if IsInternal(r) {
      InternalShape(r);
      if r in INTERNAL_NAMES {
        InternalNameShape(r);
      }
    }
  }

  // ----- The allocator -----

  /** A symbol: its identity, the mangled name it may carry, and its own name. */
  datatype Symbol = Symbol(id: nat, mangled: string, name: string)

  function Desired(sym: Symbol): string {
    if sym.mangled != "" then sym.mangled else sym.name
  }

  predicate Bypasses(sym: Symbol) {
    IsInternal(Sanitised(Desired(sym)))
  }

  /** What `MakeUnique` returns for a wish, given the names in use. */
  ghost predicate Chosen(wish: string, taken: seq<string>, r: string) {
    var base := Sanitised(wish);
    var m := Mangled(base);
    if IsInternal(base) then r == Take(base, MAX_NAME)
    else if m !in taken then r == m
    else exists k: nat :: FirstFree(m, taken, k) && r == Tried(m, k)[k - 1]
  }

  /** The `k`-th numbered name is the first one free, found within one more probe than there are names. */
  ghost predicate FirstFree(m: string, taken: seq<string>, k: nat) {
    && 1 <= k <= |taken| + 1 && k <= INT_MAX
    && (forall i :: 0 <= i < k - 1 ==> Tried(m, k)[i] in taken)
    && Tried(m, k)[k - 1] !in taken
  }

  /** A chosen name is new, and fit for C except for an empty wish at first and a lone underscore afterwards. */
  lemma ChosenFacts(wish: string, taken: seq<string>, r: string)
    requires Chosen(wish, taken, r)
    ensures |r| <= MAX_NAME
    ensures IsInternal(r) <==> IsInternal(Sanitised(wish))
    ensures !IsInternal(Sanitised(wish)) ==> r !in taken
    ensures !IsInternal(Sanitised(wish)) ==>
              (Good(r) <==> !(Sanitised(wish) == "" && "" !in taken) && !(Sanitised(wish) == "_" && "_" in taken))
  {
    hide IsInternal, Acceptable, Good, Tried, Numbered, Suffix, Sanitised, KEYWORDS;
    GoodIff(r);
    SanitisedIsClean(wish);
    var base := Sanitised(wish);
    if IsInternal(base) {
      InternalTruncated(base);
    } else {
      MangledGood(base);
      MangledNotInternal(base);
      var m := Mangled(base);
      if m in taken {
        var k: nat :| FirstFree(m, taken, k) && r == Tried(m, k)[k - 1];
        TriedAt(m, k);
        assert r == Numbered(m, k);
        StartsLikeName(base);
        NumberedGood(m, k);
        NumberedNotInternal(m, k);
        NumberedLength(m, k);
      }
      MangledEmpty();
    }
  }

  /** Sanitising changes nothing that C allows, and nothing else stays as it is. */
  lemma SanitisedIff(s: string)
    ensures Sanitised(s) == s <==> Clean(s) && |s| <= BUFFER
    ensures forall i :: 0 <= i < |Sanitised(s)| ==> (Sanitised(s)[i] == s[i] <==> IsNameChar(s[i]))
  {
    var r, t := Sanitised(s), Take(s, BUFFER);
    assert forall i :: 0 <= i < |r| ==> r[i] == if IsNameChar(t[i]) then t[i] else '_';
    if r == s {
      forall i | 0 <= i < |s| ensures IsNameChar(s[i]) {
        assert r[i] == s[i];
      }
    }
  }

  /** A wish that is a good name already, not internal and not in use, is granted as it is. */
  lemma GoodWishGranted(wish: string, taken: seq<string>, r: string)
    requires Good(wish) && !IsInternal(wish) && wish !in taken && Chosen(wish, taken, r)
    ensures r == wish
  {
    hide KEYWORDS, IsInternal, Sanitised, Good;
    GoodIff(wish);
    SanitisedIff(wish);
    assert !NeedsPrefix(wish);
    assert Mangled(wish) == wish;
  }

  /** The second symbol called `_` gets a reserved name. */
  lemma SecondUnderscore()
    ensures Chosen("_", ["_"], "__1") && !Good("__1")
  {
    hide KEYWORDS, INTERNAL_NAMES, INTERNAL_PREFIXES, Good;
    GoodIff("__1");
    SanitisedIsClean("_");
    assert Sanitised("_") == "_";
    if IsInternal("_") {
      InternalShape("_");
      if "_" in INTERNAL_NAMES {
        InternalNameShape("_");
      }
    }
    MangledGood("_");
    assert Suffix(1) == "_1";
    assert Numbered("_", 1) == "__1";
    TriedAt("_", 1);
    assert Tried("_", 1)[1 - 1] == Numbered("_", 1);
    assert FirstFree("_", ["_"], 1);
  }

  /** The first symbol without a name gets no name. */
  lemma FirstEmptyWish()
    ensures Chosen("", [], "") && !Good("")
  {
    hide KEYWORDS, INTERNAL_NAMES, INTERNAL_PREFIXES, Good;
    GoodIff("");
    assert Sanitised("") == "";
    MangledEmpty();
    if IsInternal("") {
      InternalShape("");
      if "" in INTERNAL_NAMES {
        InternalNameShape("");
      }
    }
  }

  lemma MangledEmpty()
    ensures Mangled("") == ""
  {
    hide KEYWORDS;
    EmptyIsNoKeyword();
  }

  lemma NumberedLength(m: string, k: nat)
    requires |Suffix(k)| <= MAX_NAME
    ensures |Numbered(m, k)| <= MAX_NAME
  {
  }

  lemma StartsLikeName(base: string)
    ensures Mangled(base) != "" ==> !('0' <= Mangled(base)[0] <= '9')
  {
    hide KEYWORDS;
    assert Mangled(base) != "" ==> Mangled(base)[0] == Prefixed(base)[0];
  }

  class Allocator {
    var taken: seq<string>
    var cache: seq<(Symbol, string)>

    constructor ()
      ensures taken == [] && cache == [] && Valid()
    {
      taken, cache := [], [];
    }

    /** Cached symbols are distinct, and two of them share a name only if both are internal. */
    ghost predicate Valid()
      reads this
    {
      && (forall i :: 0 <= i < |cache| ==> cache[i].1 in taken)
      && (forall i :: 0 <= i < |cache| ==> (IsInternal(cache[i].1) <==> Bypasses(cache[i].0)))
      && (forall i, j :: 0 <= i < j < |cache| ==> cache[i].0.id != cache[j].0.id)
      && (forall i, j :: 0 <= i < j < |cache| && cache[i].1 == cache[j].1 ==>
            Bypasses(cache[i].0) && Bypasses(cache[j].0))
    }

    method Reset()
      modifies this
      ensures taken == [] && cache == [] && Valid()
    {
      taken, cache := [], [];
    }

    method IsTaken(name: string) returns (r: bool)
      ensures r <==> name in taken
    {
      var i := 0;
      while i < |taken|
        invariant 0 <= i <= |taken|
        invariant name !in taken[..i]
      {
        if taken[i] == name {
          return true;
        }
        i := i + 1;
      }
      assert taken[..i] == taken;
      return false;
    }

    method MakeUnique(wish: string) returns (r: string)
      requires |taken| < INT_MAX
      modifies this`taken
      ensures Chosen(wish, old(taken), r)
      ensures taken == old(taken) + [r]
    {
      hide IsInternal, Tried, Numbered, Suffix, KEYWORDS;
      var base := Sanitise(wish);
      if IsInternal(base) {
        r := if |base| > MAX_NAME then base[..MAX_NAME] else base;
        taken := taken + [r];
        return;
      }
      var mangled := Mangle(base);
      r := mangled;
      var used := IsTaken(r);
      if used {
        r := Number(mangled);
      }
      taken := taken + [r];
    }

    /** The probing loop. */
    method Number(m: string) returns (r: string)
      requires |taken| < INT_MAX
      ensures exists k: nat :: FirstFree(m, taken, k) && r == Tried(m, k)[k - 1]
    {
      hide Tried, Suffix;
      var k := 1;
      while true
        invariant 1 <= k <= |taken| + 1
        invariant forall x <- Tried(m, k - 1) :: x in taken
        decreases |taken| + 1 - k
      {
        SuffixRoom(k);
        TriedAt(m, k);
        TriedPrefix(m, k);
        r := Numbered(m, k);
        var used := IsTaken(r);
        if !used {
          break;
        }
        ProbesAreFew(m, k, taken);
        k := k + 1;
      }
      assert FirstFree(m, taken, k);
    }

    /** Stable: a symbol seen before gets its old name.  A new one keeps all earlier names apart. */
    method Allocate(sym: Option<Symbol>) returns (r: string)
      requires Valid() && |taken| < INT_MAX
      modifies this
      ensures Valid()
      ensures sym.None? ==> r == "z_null_sym" && taken == old(taken) && cache == old(cache)
      ensures sym.Some? ==>
                if exists i :: 0 <= i < |old(cache)| && old(cache)[i].0.id == sym.value.id
                then taken == old(taken) && cache == old(cache)
                     && exists i :: 0 <= i < |cache| && cache[i].0.id == sym.value.id && cache[i].1 == r
                else Chosen(Desired(sym.value), old(taken), r)
                     && taken == old(taken) + [r] && cache == old(cache) + [(sym.value, r)]
    {
      hide IsInternal, Chosen, Sanitised;
      if sym.None? {
        return "z_null_sym";
      }
      var s := sym.value;
      var i := 0;
      while i < |cache|
        invariant 0 <= i <= |cache|
        invariant forall j :: 0 <= j < i ==> cache[j].0.id != s.id
      {
        if cache[i].0.id == s.id {
          return cache[i].1;
        }
        i := i + 1;
      }
      r := MakeUnique(Desired(s));
      ChosenFacts(Desired(s), old(taken), r);
      cache := cache + [(s, r)];
    }
  }

  lemma TriedPrefix(m: string, k: nat)
    requires 1 <= k <= INT_MAX
    ensures Tried(m, k) == Tried(m, k - 1) + [Tried(m, k)[k - 1]]
  {
  }

  method Sanitise(s: string) returns (r: string)
    ensures r == Sanitised(s)
  {
    var len := if |s| > BUFFER then BUFFER else |s|;
    r := "";
    var i := 0;
    while i < len
      invariant 0 <= i <= len && |r| == i
      invariant forall j :: 0 <= j < i ==> r[j] == if IsNameChar(s[j]) then s[j] else '_'
    {
      r := r + [if IsNameChar(s[i]) then s[i] else '_'];
      i := i + 1;
    }
  }

  method Mangle(base: string) returns (r: string)
    ensures r == Mangled(base)
  {
    hide KEYWORDS;
    var keyword := IsKeyword(base);
    var needsPrefix := (base != "" && '0' <= base[0] <= '9') || keyword || IsReserved(base);
    r := base;
    if needsPrefix {
      if base != "" && base[0] == '_' {
        r := "z" + base;
      } else {
        r := "z_" + base;
      }
    }
    if |r| > MAX_NAME {
      r := r[..MAX_NAME];
    }
    EmptyIsNoKeyword();
  }
}
