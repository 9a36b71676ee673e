/** The comma-separated rules of a struct tag, and what they say. */
module TagRules {
  import opened Names
  import opened GoNames

  /** What the first rule of that name is set to. */
  function RuleValue(parts: seq<string>, name: string): Option<string> {
    if parts == [] then None
    else
      var rule := Trim(parts[0], ' ');
      if '=' in rule && Before(rule, '=') == name then Some(After(rule, '=')) else RuleValue(parts[1..], name)
  }

  function NumberAt(rules: string, name: string): Option<int> {
    match RuleValue(Parts(rules), name)
    case Some(v) => Number(v)
    case None => None
  }

  function WordsAt(rules: string, name: string): Option<seq<string>> {
    match RuleValue(Parts(rules), name)
    case Some(v) => Some(Words(v, ""))
    case None => None
  }

  /** A decimal that fits 64 bits, signed or not. */
  function Number(v: string): Option<int> {
    var n := if v != "" && v[0] == '-' then Negated(Digits(v[1..]))
             else Digits(if v != "" && v[0] == '+' then v[1..] else v);
    if n.Some? && -0x8000_0000_0000_0000 <= n.value < 0x8000_0000_0000_0000 then n else None
  }

  function Negated(n: Option<int>): Option<int> {
    if n.Some? then Some(-n.value) else None
  }

  function Digits(v: string): Option<int> {
    if v == "" || !('0' <= v[|v| - 1] <= '9') then None
    else
      var last := v[|v| - 1] as int - '0' as int;
      if |v| == 1 then Some(last)
      else match Digits(v[..|v| - 1])
        case Some(n) => Some(10 * n + last)
        case None => None
  }

  /** The words of a text, `word` being read. */
  function Words(v: string, word: string): seq<string>
    decreases |v|
  {
    if v == "" then (if word == "" then [] else [word])
    else if v[0] == ' ' then (if word == "" then [] else [word]) + Words(v[1..], "")
    else Words(v[1..], word + [v[0]])
  }

  /** The parts between commas. */
  function Parts(s: string): (parts: seq<string>)
    ensures parts != [] && parts[0] == Before(s, ',')
  {
    if s == "" then [""]
    else if s[0] == ',' then [""] + Parts(s[1..])
    else var rest := Parts(s[1..]); [[s[0]] + rest[0]] + rest[1..]
  }

  function TrimLeft(s: string, c: char): string {
    if s != "" && s[0] == c then TrimLeft(s[1..], c) else s
  }

  function TrimRight(s: string, c: char): string {
    if s != "" && s[|s| - 1] == c then TrimRight(s[..|s| - 1], c) else s
  }

  function Trim(s: string, c: char): string {
    TrimRight(TrimLeft(s, c), c)
  }

  /** A rule of that name stands between two commas. */
  predicate HasRule(validate: string, name: string) {
    exists i :: 0 <= i < |Parts(validate)| && Trim(Parts(validate)[i], ' ') == name
  }

  /** The rules of a value and those of its elements: what stands before and after the
      first `dive`. */
  function SplitDive(v: string): (string, string) {
    match CutDive(v)
    case None => (v, "")
    case Some((outer, inner)) => (Trim(outer, ','), Trim(inner, ','))
  }

  function CutDive(v: string): Option<(string, string)> {
    if |v| < 4 then None
    else if v[..4] == "dive" then Some(("", v[4..]))
    else match CutDive(v[1..])
      case None => None
      case Some((outer, inner)) => Some(([v[0]] + outer, inner))
  }

  // ---- what they mean ----

  lemma {:induction false} PartsOfJoin(a: string, b: string)
    ensures Parts(a + "," + b) == Parts(a) + Parts(b)
  {
    var s := a + "," + b;
    if a == "" {
      assert s[0] == ',' && s[1..] == b;
    } else {
      PartsOfJoin(a[1..], b);
      assert s[0] == a[0] && s[1..] == a[1..] + "," + b;
      FirstOfAll(Parts(a[1..]), Parts(b), a[0]);
    }
  }

  lemma FirstOfAll(front: seq<string>, back: seq<string>, c: char)
    requires front != []
    ensures [[c] + (front + back)[0]] + (front + back)[1..] == [[c] + front[0]] + front[1..] + back
    ensures [""] + (front + back) == [""] + front + back
  {
  }

  lemma {:induction false} OnePart(s: string)
    requires ',' !in s
    ensures Parts(s) == [s]
  {
    if s != "" {
      OnePart(s[1..]);
      assert s == [s[0]] + s[1..];
    }
  }

  /** A text without the `c`s around it. */
  lemma TrimIs(s: string, c: char) returns (i: nat, j: nat)
    ensures i <= j <= |s| && Trim(s, c) == s[i..j]
    ensures forall k | 0 <= k < |s| && (k < i || k >= j) :: s[k] == c
    ensures i < j ==> s[i] != c && s[j - 1] != c
  {
    i := TrimLeftIs(s, c);
    j := TrimRightIs(s[i..], c);
    j := i + j;
  }

  lemma {:induction false} TrimRightIs(s: string, c: char) returns (j: nat)
    ensures j <= |s| && TrimRight(s, c) == s[..j] && (forall k | j <= k < |s| :: s[k] == c) && (j > 0 ==> s[j - 1] != c)
  {
    j := |s|;
    if s != "" && s[|s| - 1] == c {
      j := TrimRightIs(s[..|s| - 1], c);
    }
  }

  lemma {:induction false} TrimLeftIs(s: string, c: char) returns (i: nat)
    ensures i <= |s| && TrimLeft(s, c) == s[i..] && (forall k | 0 <= k < i :: s[k] == c) && (i < |s| ==> s[i] != c)
  {
    i := 0;
    if s != "" && s[0] == c {
      i := TrimLeftIs(s[1..], c);
      i := i + 1;
    }
  }

  lemma {:induction false} KeyOf(rule: string, name: string)
    requires '=' !in name
    ensures '=' in rule && Before(rule, '=') == name <==> name + "=" <= rule
    ensures name + "=" <= rule ==> After(rule, '=') == rule[|name| + 1..]
  {
    if rule != "" && rule[0] != '=' && name != "" && name[0] == rule[0] {
      KeyOf(rule[1..], name[1..]);
      assert name == [name[0]] + name[1..] && rule == [rule[0]] + rule[1..];
      assert name + "=" <= rule <==> name[1..] + "=" <= rule[1..];
    } else if name == "" && rule != "" {
      assert name + "=" <= rule <==> rule[0] == '=';
    }
  }

  /** A rule is set to what follows its name and the equals sign, where it first stands. */
  lemma {:induction false} RuleValueIs(parts: seq<string>, name: string)
    requires '=' !in name
    ensures RuleValue(parts, name).Some? <==> exists i :: 0 <= i < |parts| && name + "=" <= Trim(parts[i], ' ')
    ensures forall i | 0 <= i < |parts| && name + "=" <= Trim(parts[i], ' ') &&
                       forall k | 0 <= k < i :: !(name + "=" <= Trim(parts[k], ' ')) ::
              RuleValue(parts, name) == Some(Trim(parts[i], ' ')[|name| + 1..])
  {
    if parts != [] {
      KeyOf(Trim(parts[0], ' '), name);
      RuleValueIs(parts[1..], name);
      assert forall k | 1 <= k < |parts| :: parts[k] == parts[1..][k - 1];
      forall i | 1 <= i < |parts| && name + "=" <= Trim(parts[i], ' ')
        ensures exists j :: 0 <= j < |parts[1..]| && name + "=" <= Trim(parts[1..][j], ' ')
      {
        assert parts[1..][i - 1] == parts[i];
      }
    }
  }

  lemma {:induction false} DigitsRead(n: nat)
    ensures Digits(Decimal(n)) == Some(n) && Decimal(n) != "" && '0' <= Decimal(n)[0] <= '9'
  {
    if n >= 10 {
      DigitsRead(n / 10);
      assert Decimal(n)[..|Decimal(n)| - 1] == Decimal(n / 10);
    }
  }

  lemma {:induction false} OnlyDigitsRead(v: string)
    ensures Digits(v).Some? <==> v != "" && forall i | 0 <= i < |v| :: '0' <= v[i] <= '9'
  {
    if |v| > 1 { OnlyDigitsRead(v[..|v| - 1]); }
  }

  /** A number reads back as itself as long as it fits 64 bits; nothing else than digits
      behind an optional sign reads as one. */
  lemma NumberReads(n: int)
    requires n >= 0
    ensures Number(Decimal(n)) == if n < 0x8000_0000_0000_0000 then Some(n) else None
    ensures Number("+" + Decimal(n)) == if n < 0x8000_0000_0000_0000 then Some(n) else None
    ensures Number("-" + Decimal(n)) == if n <= 0x8000_0000_0000_0000 then Some(-n) else None
  {
    DigitsRead(n);
    assert ("+" + Decimal(n))[1..] == Decimal(n) && ("-" + Decimal(n))[1..] == Decimal(n);
  }

  lemma OnlyNumbersRead(v: string)
    requires Number(v).Some?
    ensures var digits := if v[0] == '-' || v[0] == '+' then v[1..] else v;
            digits != "" && forall i | 0 <= i < |digits| :: '0' <= digits[i] <= '9'
  {
    OnlyDigitsRead(if v != "" && (v[0] == '-' || v[0] == '+') then v[1..] else v);
  }

  /** Words are what stands between spaces, and there are no empty ones. */
  lemma {:induction false} WordsOfJoin(a: string, b: string, word: string)
    ensures Words(a + " " + b, word) == Words(a, word) + Words(b, "")
    ensures ' ' !in a ==> Words(a, word) == if word + a == "" then [] else [word + a]
    decreases |a|
  {
    if a == "" {
      assert "" + " " + b == [' '] + b && ([' '] + b)[1..] == b && word + "" == word;
    } else {
      assert (a + " " + b)[1..] == a[1..] + " " + b && a == [a[0]] + a[1..];
      if a[0] == ' ' {
        WordsOfJoin(a[1..], b, "");
      } else {
        WordsOfJoin(a[1..], b, word + [a[0]]);
        assert word + [a[0]] + a[1..] == word + a;
      }
    }
  }

  predicate DiveAt(v: string, i: nat) {
    i + 4 <= |v| && v[i..i + 4] == "dive"
  }

  lemma DiveLater(v: string, i: nat)
    requires v != ""
    ensures DiveAt(v, i + 1) <==> DiveAt(v[1..], i)
  {
    if i + 5 <= |v| { assert v[1..][i..i + 4] == v[i + 1..i + 5]; }
  }

  /** The cut is at the first `dive`, wherever it stands. */
  lemma {:induction false} CutsAtTheFirst(v: string)
    ensures match CutDive(v)
            case None => forall i: nat :: !DiveAt(v, i)
            case Some((a, b)) => v == a + "dive" + b && forall i: nat | i < |a| :: !DiveAt(v, i)
  {
    if |v| >= 4 && v[..4] == "dive" {
      assert v == v[..4] + v[4..];
    } else if |v| >= 4 {
      CutsAtTheFirst(v[1..]);
      NoneBefore(v);
      match CutDive(v[1..]) {
        case None =>
        case Some((a, b)) => assert v == [v[0]] + (a + "dive" + b) == [v[0]] + a + "dive" + b;
      }
    }
  }

  lemma NoneBefore(v: string)
    requires |v| >= 4 && v[..4] != "dive"
    ensures forall i: nat :: DiveAt(v, i) <==> i > 0 && DiveAt(v[1..], i - 1)
  {
    assert v[0..4] == v[..4];
    forall i: nat | i > 0 ensures DiveAt(v, i) <==> DiveAt(v[1..], i - 1) { DiveLater(v, i - 1); }
  }
}
