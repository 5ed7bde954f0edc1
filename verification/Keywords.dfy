/** The C keywords, and the binary search that recognises them. */
module Keywords {
  const ROW1: seq<string> := ["auto", "break", "case", "char", "const", "continue", "default", "do"]
  const ROW2: seq<string> := ["double", "else", "enum", "extern", "float", "for", "goto", "if"]
  const ROW3: seq<string> := ["int", "long", "register", "return", "short", "signed", "sizeof", "static"]
  const ROW4: seq<string> := ["struct", "switch", "typedef", "union", "unsigned", "void", "volatile", "while"]
  const KEYWORDS: seq<string> := ROW1 + ROW2 + ROW3 + ROW4

  /** Lexicographic order, as `strcmp` has it. */
  predicate Less(a: string, b: string) {
    b != "" && (a == "" || a[0] < b[0] || (a[0] == b[0] && Less(a[1..], b[1..])))
  }

  lemma {:induction false} Transitive(a: string, b: string, c: string)
    requires Less(a, b) && Less(b, c)
    ensures Less(a, c)
  {
    if a != "" && a[0] == b[0] && b[0] == c[0] {
      Transitive(a[1..], b[1..], c[1..]);
    }
  }

  lemma {:induction false} Irreflexive(a: string)
    ensures !Less(a, a)
  {
    if a != "" {
      Irreflexive(a[1..]);
    }
  }

  lemma {:induction false} Total(a: string, b: string)
    ensures a == b || Less(a, b) || Less(b, a)
  {
    if a != "" && b != "" && a[0] == b[0] {
      Total(a[1..], b[1..]);
      assert a == [a[0]] + a[1..] && b == [b[0]] + b[1..];
    }
  }

  /** The first difference decides. */
  lemma {:induction false} Differ(a: string, b: string, k: nat)
    requires k <= |a| && k < |b| && a[..k] == b[..k] && (k == |a| || a[k] < b[k])
    ensures Less(a, b)
    decreases k
  {
    if k > 0 {
      assert a[0] == a[..k][0] && b[0] == b[..k][0];
      assert a[1..][..k - 1] == a[..k][1..] && b[1..][..k - 1] == b[..k][1..];
      Differ(a[1..], b[1..], k - 1);
    }
  }

  predicate Ascending(t: seq<string>) {
    forall i, j :: 0 <= i < j < |t| ==> Less(t[i], t[j])
  }

  lemma {:induction false} Chains(t: seq<string>, i: nat, j: nat)
    requires forall k :: 0 <= k < |t| - 1 ==> Less(t[k], t[k + 1])
    requires i < j < |t|
    ensures Less(t[i], t[j])
    decreases j
  {
    assert Less(t[j - 1], t[j - 1 + 1]);
    if i < j - 1 {
      Chains(t, i, j - 1);
      Transitive(t[i], t[j - 1], t[j]);
    }
  }

  lemma Row1Ascends()
    ensures forall k :: 0 <= k < |ROW1| - 1 ==> Less(ROW1[k], ROW1[k + 1])
    ensures forall w <- ROW1 :: Plain(w)
  {
    hide Less;
    Differ("auto", "break", 0);
    Differ("break", "case", 0);
    Differ("case", "char", 1);
    Differ("char", "const", 1);
    Differ("const", "continue", 3);
    Differ("continue", "default", 0);
    Differ("default", "do", 1);
  }

  lemma Row2Ascends()
    ensures forall k :: 0 <= k < |ROW2| - 1 ==> Less(ROW2[k], ROW2[k + 1])
    ensures forall w <- ROW2 :: Plain(w)
  {
    hide Less;
    Differ("double", "else", 0);
    Differ("else", "enum", 1);
    Differ("enum", "extern", 1);
    Differ("extern", "float", 0);
    Differ("float", "for", 1);
    Differ("for", "goto", 0);
    Differ("goto", "if", 0);
  }

  lemma Row3Ascends()
    ensures forall k :: 0 <= k < |ROW3| - 1 ==> Less(ROW3[k], ROW3[k + 1])
    ensures forall w <- ROW3 :: Plain(w)
  {
    hide Less;
    Differ("int", "long", 0);
    Differ("long", "register", 0);
    Differ("register", "return", 2);
    Differ("return", "short", 0);
    Differ("short", "signed", 1);
    Differ("signed", "sizeof", 2);
    Differ("sizeof", "static", 1);
  }

  lemma Row4Ascends()
    ensures forall k :: 0 <= k < |ROW4| - 1 ==> Less(ROW4[k], ROW4[k + 1])
    ensures forall w <- ROW4 :: Plain(w)
  {
    hide Less;
    Differ("struct", "switch", 1);
    Differ("switch", "typedef", 0);
    Differ("typedef", "union", 0);
    Differ("union", "unsigned", 2);
    Differ("unsigned", "void", 0);
    Differ("void", "volatile", 2);
    Differ("volatile", "while", 0);
  }

  lemma Joined(s: seq<string>, t: seq<string>)
    requires s != [] && t != [] && Less(s[|s| - 1], t[0])
    requires forall k :: 0 <= k < |s| - 1 ==> Less(s[k], s[k + 1])
    requires forall k :: 0 <= k < |t| - 1 ==> Less(t[k], t[k + 1])
    ensures forall k :: 0 <= k < |s + t| - 1 ==> Less((s + t)[k], (s + t)[k + 1])
  {
    hide Less;
    forall k | 0 <= k < |s + t| - 1 ensures Less((s + t)[k], (s + t)[k + 1]) {
      if k >= |s| {
        assert (s + t)[k] == t[k - |s|] && (s + t)[k + 1] == t[k - |s| + 1];
      }
    }
  }

  lemma KeywordsAscend()
    ensures Ascending(KEYWORDS)
  {
    hide Less, Plain;
    Row1Ascends();
    Row2Ascends();
    Row3Ascends();
    Row4Ascends();
    Differ("do", "double", 2);
    Differ("if", "int", 1);
    Differ("static", "struct", 2);
    Joined(ROW1, ROW2);
    Joined(ROW1 + ROW2, ROW3);
    Joined(ROW1 + ROW2 + ROW3, ROW4);
    forall i, j | 0 <= i < j < |KEYWORDS| ensures Less(KEYWORDS[i], KEYWORDS[j]) {
      Chains(KEYWORDS, i, j);
    }
  }

  /** Keywords are short, start with another letter than z, and hold no underscore. */
  predicate Plain(w: string) {
    2 <= |w| <= 8 && w[0] != 'z' && forall i :: 0 <= i < |w| ==> w[i] != '_'
  }

  lemma KeywordShape(w: string)
    requires w in KEYWORDS
    ensures Plain(w)
  {
    hide Less, Plain;
    Row1Ascends();
    Row2Ascends();
    Row3Ascends();
    Row4Ascends();
  }

  // ----- The table is C's -----

  /** The keywords of section 6.1.1 of ISO/IEC 9899:1990, by what they are for. */
  predicate IsCKeyword(s: string) {
    || s in {"auto", "extern", "register", "static", "typedef"}
    || s in {"char", "double", "enum", "float", "int", "long", "short", "signed", "struct", "union", "unsigned", "void"}
    || s in {"const", "volatile"}
    || s in {"break", "case", "continue", "default", "do", "else", "for", "goto", "if", "return", "switch", "while"}
    || s == "sizeof"
  }

  lemma TableIsC(s: string)
    ensures s in KEYWORDS <==> IsCKeyword(s)
  {
    assert s in KEYWORDS <==> s in ROW1 || s in ROW2 || s in ROW3 || s in ROW4;
  }

  // ----- The search -----

  method IsKeyword(name: string) returns (r: bool)
    ensures r <==> name in KEYWORDS
    ensures r <==> IsCKeyword(name)
  {
    hide IsCKeyword;
    TableIsC(name);
    KeywordsAscend();
    var low, high := 0, |KEYWORDS| - 1;
    while low <= high
      invariant 0 <= low <= high + 1 <= |KEYWORDS|
      invariant forall i :: 0 <= i < low ==> KEYWORDS[i] != name
      invariant forall i :: high < i < |KEYWORDS| ==> KEYWORDS[i] != name
      decreases high - low
    {
      var mid := low + (high - low) / 2;
      if name == KEYWORDS[mid] {
        return true;
      }
      Total(name, KEYWORDS[mid]);
      if Less(name, KEYWORDS[mid]) {
        RuleOut(name, mid);
        high := mid - 1;
      } else {
        RuleOut(name, mid);
        low := mid + 1;
      }
    }
    return false;
  }

  /** One comparison rules out half of the table. */
  lemma RuleOut(name: string, mid: nat)
    requires Ascending(KEYWORDS) && mid < |KEYWORDS|
    ensures Less(name, KEYWORDS[mid]) ==> forall i :: mid <= i < |KEYWORDS| ==> KEYWORDS[i] != name
    ensures Less(KEYWORDS[mid], name) ==> forall i :: 0 <= i <= mid ==> KEYWORDS[i] != name
  {
    hide KEYWORDS;
    forall i | mid <= i < |KEYWORDS| && Less(name, KEYWORDS[mid]) ensures KEYWORDS[i] != name {
      if i > mid {
        Transitive(name, KEYWORDS[mid], KEYWORDS[i]);
      }
      Irreflexive(name);
    }
    forall i | 0 <= i <= mid && Less(KEYWORDS[mid], name) ensures KEYWORDS[i] != name {
      if i < mid {
        Transitive(KEYWORDS[i], KEYWORDS[mid], name);
      }
      Irreflexive(name);
    }
  }
}
