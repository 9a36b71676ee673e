/** Escaping a value for use inside a LIKE pattern whose escape character is a backslash. */
module LikePattern {

  /** Every occurrence of one character replaced, left to right. */
  function ReplaceAll(s: string, c: char, new_: string): string {
    if s == "" then "" else (if s[0] == c then new_ else [s[0]]) + ReplaceAll(s[1..], c, new_)
  }

  /** The three passes, the backslash first. */
  function EscapeLike(s: string): string {
    ReplaceAll(ReplaceAll(ReplaceAll(s, '\\', "\\\\"), '%', "\\%"), '_', "\\_")
  }

  predicate Special(c: char) {
    c == '\\' || c == '%' || c == '_'
  }

  function EscapeOne(c: char): string {
    if Special(c) then ['\\', c] else [c]
  }

  /** One pass, each special character behind a backslash. */
  function Escaped(s: string): string {
    if s == "" then "" else EscapeOne(s[0]) + Escaped(s[1..])
  }

  lemma {:induction false} ReplaceConcat(a: string, b: string, c: char, new_: string)
    ensures ReplaceAll(a + b, c, new_) == ReplaceAll(a, c, new_) + ReplaceAll(b, c, new_)
  {
    if a == "" {
      assert a + b == b;
    } else {
      assert (a + b)[1..] == a[1..] + b;
      ReplaceConcat(a[1..], b, c, new_);
    }
  }

  lemma ReplaceOne(c: char, by_: char, new_: string)
    ensures ReplaceAll([c], by_, new_) == if c == by_ then new_ else [c]
  {
    assert [c][1..] == "";
    assert ReplaceAll("", by_, new_) == "";
  }

  lemma ReplaceTwo(b: char, c: char, by_: char, new_: string)
    requires b != by_ && c != by_
    ensures ReplaceAll([b, c], by_, new_) == [b, c]
  {
    assert [b, c] == [b] + [c];
    ReplaceConcat([b], [c], by_, new_);
    ReplaceOne(b, by_, new_);
    ReplaceOne(c, by_, new_);
  }

  lemma EscapeLikeOne(c: char)
    ensures EscapeLike([c]) == EscapeOne(c)
  {
    ReplaceOne(c, '\\', "\\\\");
    if c == '\\' {
      ReplaceTwo('\\', '\\', '%', "\\%");
      ReplaceTwo('\\', '\\', '_', "\\_");
    } else {
      ReplaceOne(c, '%', "\\%");
      if c == '%' {
        ReplaceTwo('\\', '%', '_', "\\_");
      } else {
        ReplaceOne(c, '_', "\\_");
      }
    }
  }

  lemma EscapeLikeConcat(a: string, b: string)
    ensures EscapeLike(a + b) == EscapeLike(a) + EscapeLike(b)
  {
    ReplaceConcat(a, b, '\\', "\\\\");
    var a1, b1 := ReplaceAll(a, '\\', "\\\\"), ReplaceAll(b, '\\', "\\\\");
    ReplaceConcat(a1, b1, '%', "\\%");
    ReplaceConcat(ReplaceAll(a1, '%', "\\%"), ReplaceAll(b1, '%', "\\%"), '_', "\\_");
  }

  /** No pass mangles what an earlier one wrote: three passes are one. */
  lemma {:induction false} ThreePassesAreOne(s: string)
    ensures EscapeLike(s) == Escaped(s)
  {
    if s != "" {
      assert s == [s[0]] + s[1..];
      EscapeLikeConcat([s[0]], s[1..]);
      EscapeLikeOne(s[0]);
      ThreePassesAreOne(s[1..]);
    }
  }

  // ---- what a pattern means ----

  /** LIKE with a backslash as its escape character. A pattern that ends in a lone backslash
      matches nothing. */
  predicate Like(p: string, t: string)
    decreases |p| + |t|
  {
    if p == "" then t == ""
    else if p[0] == '\\' then |p| > 1 && t != "" && t[0] == p[1] && Like(p[2..], t[1..])
    else if p[0] == '%' then Like(p[1..], t) || (t != "" && Like(p, t[1..]))
    else t != "" && (p[0] == '_' || t[0] == p[0]) && Like(p[1..], t[1..])
  }

  /** An escaped value followed by any pattern matches the value itself, then the pattern. */
  lemma {:induction false} EscapedThen(s: string, p: string, t: string)
    ensures Like(Escaped(s) + p, t) <==> |t| >= |s| && t[..|s|] == s && Like(p, t[|s|..])
    decreases |s|
  {
    if s == "" {
      assert Escaped(s) + p == p && t[0..] == t;
    } else {
      var rest := Escaped(s[1..]) + p;
      assert Escaped(s) + p == EscapeOne(s[0]) + rest;
      if Special(s[0]) {
        assert (Escaped(s) + p)[2..] == rest;
      } else {
        assert (Escaped(s) + p)[1..] == rest;
      }
      if t != "" {
        EscapedThen(s[1..], p, t[1..]);
        StartsWith(s, t);
        assert |t| >= |s| ==> t[1..][|s| - 1..] == t[|s|..];
      }
    }
  }

  lemma StartsWith(s: string, t: string)
    requires s != "" && t != ""
    ensures (|t| >= |s| && t[..|s|] == s) <==> (t[0] == s[0] && |t[1..]| >= |s[1..]| && t[1..][..|s[1..]|] == s[1..])
  {
    if |t| >= |s| {
      assert t[..|s|] == [t[0]] + t[1..][..|s[1..]|];
      assert s == [s[0]] + s[1..];
    }
  }

  /** The escaped value matches exactly itself. */
  lemma EscapedMatchesExactly(s: string, t: string)
    ensures Like(EscapeLike(s), t) <==> t == s
  {
    ThreePassesAreOne(s);
    EscapedThen(s, "", t);
    assert Escaped(s) + "" == Escaped(s);
    if |t| >= |s| && t[|s|..] == "" { assert t == t[..|s|]; }
  }

  lemma {:induction false} PercentMatchesAnything(t: string)
    ensures Like("%", t)
    decreases |t|
  {
    assert "%"[1..] == "";
    if t != "" {
      PercentMatchesAnything(t[1..]);
    }
  }

  /** Followed by a percent it matches exactly the strings that begin with it. */
  lemma EscapedPrefixExactly(s: string, t: string)
    ensures Like(EscapeLike(s) + "%", t) <==> s <= t
  {
    ThreePassesAreOne(s);
    EscapedThen(s, "%", t);
    if |t| >= |s| { PercentMatchesAnything(t[|s|..]); }
  }

  /** Between two percents, exactly the strings that contain it. */
  lemma {:induction false} EscapedAnywhereExactly(s: string, t: string)
    ensures Like("%" + EscapeLike(s) + "%", t) <==> exists i :: 0 <= i <= |t| && s <= t[i..]
    decreases |t|
  {
    var p := "%" + EscapeLike(s) + "%";
    assert p[1..] == EscapeLike(s) + "%" && p[0] == '%';
    EscapedPrefixExactly(s, t);
    assert t[0..] == t;
    if t == "" {
      assert forall i | 0 <= i <= |t| :: t[i..] == t;
    } else {
      EscapedAnywhereExactly(s, t[1..]);
      forall i | 0 <= i <= |t[1..]| ensures t[1..][i..] == t[i + 1..] {}
      if i :| 0 <= i <= |t[1..]| && s <= t[1..][i..] { assert s <= t[i + 1..]; }
      if i :| 1 <= i <= |t| && s <= t[i..] { assert s <= t[1..][i - 1..]; }
    }
  }

  /** With the backslash last the passes do get in each other's way, exactly when the value
      holds a wildcard. */
  lemma {:induction false} BackslashLastExactly(s: string)
    ensures ReplaceAll(ReplaceAll(ReplaceAll(s, '%', "\\%"), '_', "\\_"), '\\', "\\\\") == Escaped(s)
            <==> '%' !in s && '_' !in s
    ensures |ReplaceAll(ReplaceAll(ReplaceAll(s, '%', "\\%"), '_', "\\_"), '\\', "\\\\")| >= |Escaped(s)|
  {
    if s != "" {
      var c := s[0];
      assert s == [c] + s[1..];
      BackslashLastExactly(s[1..]);
      ReplaceConcat([c], s[1..], '%', "\\%");
      var a, b := ReplaceAll([c], '%', "\\%"), ReplaceAll(s[1..], '%', "\\%");
      ReplaceConcat(a, b, '_', "\\_");
      ReplaceConcat(ReplaceAll(a, '_', "\\_"), ReplaceAll(b, '_', "\\_"), '\\', "\\\\");
      BackslashLastOne(c);
      var e := ReplaceAll(ReplaceAll(a, '_', "\\_"), '\\', "\\\\");
      var r := ReplaceAll(ReplaceAll(b, '_', "\\_"), '\\', "\\\\");
      assert (e + r)[|e|..] == r && (EscapeOne(c) + Escaped(s[1..]))[|EscapeOne(c)|..] == Escaped(s[1..]);
      assert c in s && forall x | x in s[1..] :: x in s;
    }
  }

  lemma BackslashLastOne(c: char)
    ensures var e := ReplaceAll(ReplaceAll(ReplaceAll([c], '%', "\\%"), '_', "\\_"), '\\', "\\\\");
            if c == '%' || c == '_' then |e| == 3 else e == EscapeOne(c)
  {
    ReplaceOne(c, '%', "\\%");
    if c == '%' {
      ReplaceTwo('\\', '%', '_', "\\_");
      SlashTwice('%');
    } else {
      ReplaceOne(c, '_', "\\_");
      if c == '_' {
        SlashTwice('_');
      } else {
        ReplaceOne(c, '\\', "\\\\");
      }
    }
  }

  lemma SlashTwice(c: char)
    requires c != '\\'
    ensures |ReplaceAll(['\\', c], '\\', "\\\\")| == 3
  {
    assert ['\\', c] == ['\\'] + [c];
    ReplaceConcat(['\\'], [c], '\\', "\\\\");
    ReplaceOne('\\', '\\', "\\\\");
    ReplaceOne(c, '\\', "\\\\");
  }

  /** What the three characters mean on their own: a percent matches anything, an underscore
      any one character, and a backslash makes them and itself stand for themselves. */
  lemma {:induction false} Wildcards(t: string)
    ensures Like("%", t) && (Like("_", t) <==> |t| == 1)
    ensures Like("\\%", t) <==> t == "%"
    ensures Like("\\_", t) <==> t == "_"
    ensures Like("\\\\", t) <==> t == "\\"
    decreases |t|
  {
    assert "%"[1..] == "" && "_"[1..] == "" && "\\%"[2..] == "" && "\\_"[2..] == "" && "\\\\"[2..] == "";
    if t != "" {
      Wildcards(t[1..]);
      assert t[1..] == "" <==> |t| == 1;
    }
  }
}
