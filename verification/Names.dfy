/** The names the relay node derives from strings it is handed: the domain an
    address belongs to, the key of a pending outcome, and the spool id of a claimed
    message. Everything the durable queue keeps apart, it keeps apart by one of
    these names, so what they tell apart - and what they do not - decides what the
    protocol can promise. */
module Names {

  datatype Option<+T> = None | Some(value: T)

  const SEPARATOR: char := '|'

  /** A recipient of one email, the unit the platform is told about. */
  datatype Pair = Pair(email: string, recipient: string)

  function OutcomeKey(email: string, recipient: string): string {
    email + [SEPARATOR] + recipient
  }

  function Key(p: Pair): string {
    OutcomeKey(p.email, p.recipient)
  }

  /** The text before the first `sep`, or all of it when there is none. */
  function Before(s: string, sep: char): string {
    if s == [] || s[0] == sep then [] else [s[0]] + Before(s[1..], sep)
  }

  /** The text after the first `sep`, empty when there is none. */
  function After(s: string, sep: char): string {
    if s == [] then [] else if s[0] == sep then s[1..] else After(s[1..], sep)
  }

  /** Reading an outcome key back gives the email it was built from exactly when that
      email holds no separator. */
  lemma {:induction false} OutcomeKeyReadsBack(email: string, recipient: string)
    ensures Before(OutcomeKey(email, recipient), SEPARATOR) == email <==> SEPARATOR !in email
    ensures SEPARATOR !in email ==> After(OutcomeKey(email, recipient), SEPARATOR) == recipient
  {
    var key := OutcomeKey(email, recipient);
    if email == [] {
      assert key[0] == SEPARATOR;
      assert key[1..] == recipient;
    } else if email[0] != SEPARATOR {
      assert key[1..] == OutcomeKey(email[1..], recipient);
      OutcomeKeyReadsBack(email[1..], recipient);
      assert email == [email[0]] + email[1..];
    } else {
      assert key[0] == SEPARATOR;
    }
  }

  /** No email id is another one's beginning up to a separator. */
  ghost predicate Unambiguous(emails: set<string>) {
    forall e, f | e in emails && f in emails :: !(e + [SEPARATOR] <= f)
  }

  /** Every pair of emails in `emails` and any recipients gets a key of its own. */
  ghost predicate KeysTellApart(emails: set<string>) {
    forall p: Pair, q: Pair | p.email in emails && q.email in emails && Key(p) == Key(q) :: p == q
  }

  lemma SharedKeyIsPrefix(p: Pair, q: Pair)
    requires Key(p) == Key(q) && |p.email| < |q.email|
    ensures p.email + [SEPARATOR] <= q.email
  {
    var k := Key(p);
    assert p.email + [SEPARATOR] == k[..|p.email| + 1] == q.email[..|p.email| + 1];
  }

  lemma SameKey(emails: set<string>, p: Pair, q: Pair)
    requires Unambiguous(emails) && p.email in emails && q.email in emails
    requires Key(p) == Key(q)
    ensures p == q
  {
    if |p.email| < |q.email| {
      SharedKeyIsPrefix(p, q);
    } else if |q.email| < |p.email| {
      SharedKeyIsPrefix(q, p);
    } else {
      var k := Key(p);
      assert p.email == k[..|p.email|] == q.email;
      assert p.recipient == k[|p.email| + 1..] == q.recipient;
    }
  }

  /** The outcomes bucket keeps the recipients of a set of emails apart exactly when no
      email id begins with another one and a separator. */
  lemma KeysTellApartExactly(emails: set<string>)
    ensures KeysTellApart(emails) <==> Unambiguous(emails)
  {
    if Unambiguous(emails) {
      forall p: Pair, q: Pair | p.email in emails && q.email in emails && Key(p) == Key(q)
        ensures p == q
      {
        SameKey(emails, p, q);
      }
    }
    if !Unambiguous(emails) {
      var e, f :| e in emails && f in emails && e + [SEPARATOR] <= f;
      var p, q := Collision(e, f, "");
    }
  }

  /** Two different recipients that share one row, for any two such email ids. */
  lemma Collision(e: string, f: string, recipient: string) returns (p: Pair, q: Pair)
    requires e + [SEPARATOR] <= f
    ensures p == Pair(e, f[|e| + 1..] + [SEPARATOR] + recipient) && q == Pair(f, recipient)
    ensures p != q && Key(p) == Key(q)
  {
    var rest := f[|e| + 1..];
    p, q := Pair(e, rest + [SEPARATOR] + recipient), Pair(f, recipient);
    assert f == e + [SEPARATOR] + rest;
    assert Key(p) == e + [SEPARATOR] + (rest + [SEPARATOR] + recipient);
  }

  function Lower(c: char): char {
    if 'A' <= c <= 'Z' then c - 'A' + 'a' else c
  }

  function ToLower(s: string): string {
    seq(|s|, i requires 0 <= i < |s| => Lower(s[i]))
  }

  /** What follows the last `sep`, nothing when there is none. */
  function AfterLast(s: string, sep: char): Option<string> {
    if s == [] then None
    else match AfterLast(s[1..], sep)
      case Some(rest) => Some(rest)
      case None => if s[0] == sep then Some(s[1..]) else None
  }

  /** The lower-cased domain of an address, if it has an `@`. */
  function Domain(rcpt: string): Option<string> {
    match AfterLast(rcpt, '@')
    case Some(host) => Some(ToLower(host))
    case None => None
  }

  /** The domain is what follows the last `@`, in lower case. */
  lemma {:induction false} DomainReads(local: string, host: string)
    requires '@' !in host
    ensures Domain(local + "@" + host) == Some(ToLower(host)) && Domain(host) == None
    ensures |ToLower(host)| == |host|
    ensures forall i | 0 <= i < |host| ::
              ToLower(host)[i] == if 'A' <= host[i] <= 'Z' then (host[i] as int + 32) as char else host[i]
  {
    NothingAfter(host, '@');
    AfterLastReads(local, host, '@');
    assert local + ['@'] + host == local + "@" + host;
  }

  lemma {:induction false} AfterLastReads(front: string, tail: string, sep: char)
    requires sep !in tail
    ensures AfterLast(front + [sep] + tail, sep) == Some(tail)
    decreases |front|
  {
    NothingAfter(tail, sep);
    if front == "" {
      assert (front + [sep] + tail)[1..] == tail;
    } else {
      AfterLastReads(front[1..], tail, sep);
      assert (front + [sep] + tail)[1..] == front[1..] + [sep] + tail;
    }
  }

  lemma {:induction false} NothingAfter(s: string, sep: char)
    requires sep !in s
    ensures AfterLast(s, sep) == None
  {
    if s != "" { NothingAfter(s[1..], sep); }
  }

  /** What stands before an address leaves its domain alone. */
  lemma {:induction false} DomainOfTail(front: string, rcpt: string)
    requires Domain(rcpt).Some?
    ensures Domain(front + rcpt) == Domain(rcpt)
  {
    if front != "" {
      DomainOfTail(front[1..], rcpt);
      assert (front + rcpt)[1..] == front[1..] + rcpt;
    } else {
      assert front + rcpt == rcpt;
    }
  }

  /** The addresses of one domain, in the order they came. */
  function Of(rcpts: seq<string>, domain: string): seq<string> {
    if rcpts == [] then []
    else (if Domain(rcpts[0]) == Some(domain) then [rcpts[0]] else []) + Of(rcpts[1..], domain)
  }

  /** They stand in the order they were named. */
  lemma {:induction false} OfInOrder(rcpts: seq<string>, domain: string, k: nat)
    requires k <= |rcpts|
    ensures Of(rcpts[..k], domain) + Of(rcpts[k..], domain) == Of(rcpts, domain)
    decreases |rcpts|
  {
    if k == 0 {
      assert rcpts[..0] == [] && rcpts[0..] == rcpts;
    } else {
      OfInOrder(rcpts[1..], domain, k - 1);
      assert rcpts[..k][1..] == rcpts[1..][..k - 1] && rcpts[1..][k - 1..] == rcpts[k..];
    }
  }

  function Domains(rcpts: seq<string>): set<string> {
    set r | r in rcpts && Domain(r).Some? :: Domain(r).value
  }

  /** One group of recipients per domain. */
  function ByDomain(rcpts: seq<string>): map<string, seq<string>> {
    map d | d in Domains(rcpts) :: Of(rcpts, d)
  }

  lemma {:induction false} OfMember(rcpts: seq<string>, domain: string, r: string)
    ensures r in Of(rcpts, domain) <==> r in rcpts && Domain(r) == Some(domain)
  {
    if rcpts != [] {
      OfMember(rcpts[1..], domain, r);
      assert rcpts == [rcpts[0]] + rcpts[1..];
    }
  }

  lemma {:induction false} OfExtend(rcpts: seq<string>, r: string, domain: string)
    ensures Of(rcpts + [r], domain) == Of(rcpts, domain) + (if Domain(r) == Some(domain) then [r] else [])
  {
    if rcpts == [] {
      assert rcpts + [r] == [r];
      assert Of([], domain) == [];
    } else {
      OfExtend(rcpts[1..], r, domain);
      assert (rcpts + [r])[1..] == rcpts[1..] + [r];
    }
  }

  /** Grouping loses no address and invents none: one with a domain is in the group of
      its own domain, as often as it was handed in, and in no other. */
  lemma {:induction false} GroupingPartitions(rcpts: seq<string>, r: string, d: string)
    ensures multiset(Of(rcpts, d))[r] == if Domain(r) == Some(d) then multiset(rcpts)[r] else 0
  {
    if rcpts != [] {
      GroupingPartitions(rcpts[1..], r, d);
      assert rcpts == [rcpts[0]] + rcpts[1..];
      assert multiset(rcpts) == multiset{rcpts[0]} + multiset(rcpts[1..]);
    }
  }

  lemma DomainsExtend(rcpts: seq<string>, r: string)
    ensures Domains(rcpts + [r]) == Domains(rcpts) + (if Domain(r).Some? then {Domain(r).value} else {})
  {
    var all := rcpts + [r];
    assert all[|rcpts|] == r;
    forall x | x in rcpts ensures x in all {
      var i :| 0 <= i < |rcpts| && rcpts[i] == x;
      assert all[i] == x;
    }
  }

  lemma GroupStep(rcpts: seq<string>, r: string, d: string)
    requires Domain(r) == Some(d)
    ensures ByDomain(rcpts + [r]) == ByDomain(rcpts)[d := Of(rcpts, d) + [r]]
  {
    DomainsExtend(rcpts, r);
    forall e: string | e in Domains(rcpts + [r])
      ensures Of(rcpts + [r], e) == if e == d then Of(rcpts, d) + [r] else Of(rcpts, e)
    {
      OfExtend(rcpts, r, e);
    }
  }

  lemma SkipStep(rcpts: seq<string>, r: string)
    requires Domain(r).None?
    ensures ByDomain(rcpts + [r]) == ByDomain(rcpts)
  {
    DomainsExtend(rcpts, r);
    forall e: string | e in Domains(rcpts)
      ensures Of(rcpts + [r], e) == Of(rcpts, e)
    {
      OfExtend(rcpts, r, e);
    }
  }

  /** The grouping loop shared by the listener and the claim loop. */
  method Group(rcpts: seq<string>) returns (byDomain: map<string, seq<string>>)
    ensures byDomain == ByDomain(rcpts)
  {
    byDomain := map[];
    for i := 0 to |rcpts|
      invariant byDomain == ByDomain(rcpts[..i])
    {
      var rcpt := rcpts[i];
      assert rcpts[..i + 1] == rcpts[..i] + [rcpt];
      var domain := Domain(rcpt);
      if domain.Some? {
        var d := domain.value;
        NoneElsewhere(rcpts[..i], d);
        GroupStep(rcpts[..i], rcpt, d);
        byDomain := byDomain[d := (if d in byDomain then byDomain[d] else []) + [rcpt]];
      } else {
        SkipStep(rcpts[..i], rcpt);
      }
    }
    assert rcpts[..|rcpts|] == rcpts;
  }

  lemma {:induction false} NoneElsewhere(rcpts: seq<string>, d: string)
    ensures d !in Domains(rcpts) <==> Of(rcpts, d) == []
  {
    if Of(rcpts, d) != [] {
      OfMember(rcpts, d, Of(rcpts, d)[0]);
    }
    if d in Domains(rcpts) {
      var r :| r in rcpts && Domain(r) == Some(d);
      OfMember(rcpts, d, r);
    }
  }

  /** The spool id of one claimed message for one domain. `tag` stands for the digest of
      the domain, which is cut to a fixed length. */
  function ClaimedId(tag: string -> string, email: string, domain: string): string {
    email + "-" + tag(domain)
  }

  ghost predicate FixedLength(tag: string -> string) {
    forall d, e :: |tag(d)| == |tag(e)|
  }

  /** Claimed ids are as distinct as the digests: the email and the digest can be read
      off the id although an email may hold a dash. */
  lemma ClaimedIdTellsApart(tag: string -> string, e: string, d: string, e': string, d': string)
    requires FixedLength(tag)
    ensures ClaimedId(tag, e, d) == ClaimedId(tag, e', d') <==> e == e' && tag(d) == tag(d')
  {
    var a, b := ClaimedId(tag, e, d), ClaimedId(tag, e', d');
    assert |tag(d)| == |tag(d')|;
    if a == b {
      assert e == a[..|e|] && e' == b[..|e'|];
      assert tag(d) == a[|e| + 1..] && tag(d') == b[|e'| + 1..];
    }
  }
}
