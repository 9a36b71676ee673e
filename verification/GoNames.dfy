/** The names of Go types and packages, as both generators use them. */
module GoNames {
  import opened Names

  function Exported(s: string): string {
    if s == "" then "" else [Upper(s[0])] + s[1..]
  }

  function Upper(c: char): char {
    if 'a' <= c <= 'z' then c - 'a' + 'A' else c
  }

  const QUALIFIERS: map<string, string> :=
    map["apikey" := "APIKey", "oauthprovider" := "OAuthProvider", "sesfeedback" := "SESFeedback",
        "smtpcredential" := "SMTPCredential", "smtpserver" := "SMTPServer"]

  /** The last element of a package path. */
  function BaseOf(pkg: string): string {
    match AfterLast(pkg, '/')
    case Some(base) => base
    case None => pkg
  }

  function Qualifier(pkg: string): string {
    if pkg in QUALIFIERS then QUALIFIERS[pkg] else Exported(pkg)
  }

  /** The name given to a type, when it has one. */
  function NameOf(names: map<nat, string>, id: nat): string {
    if id in names then names[id] else ""
  }

  /** Names given out stay given out. */
  ghost predicate Extends(a: map<nat, string>, b: map<nat, string>) {
    forall id | id in a :: id in b && b[id] == a[id]
  }

  predicate IsDigit(c: char) {
    '0' <= c <= '9'
  }

  function Decimal(n: nat): (s: string)
    ensures s != [] && IsDigit(s[|s| - 1])
  {
    if n < 10 then [('0' as int + n) as char] else Decimal(n / 10) + [('0' as int + n % 10) as char]
  }

  /** What the prefixes are made of: the last element of a path, its first letter raised, but
      for the packages that spell an initialism. */
  lemma PrefixesAre(path: string, base: string)
    requires '/' !in base
    ensures BaseOf(base) == base && BaseOf(path + "/" + base) == base
    ensures base != "" ==> |Exported(base)| == |base| && Exported(base)[1..] == base[1..]
    ensures base != "" ==>
              Exported(base)[0] == if 'a' <= base[0] <= 'z' then (base[0] as int - 32) as char else base[0]
  {
    NothingAfter(base, '/');
    LastPart(path, base);
  }

  lemma QualifiersAre(base: string)
    ensures Qualifier("apikey") == "APIKey" && Qualifier("oauthprovider") == "OAuthProvider"
    ensures Qualifier("sesfeedback") == "SESFeedback" && Qualifier("smtpcredential") == "SMTPCredential"
    ensures Qualifier("smtpserver") == "SMTPServer"
    ensures base !in {"apikey", "oauthprovider", "sesfeedback", "smtpcredential", "smtpserver"} ==>
              Qualifier(base) == Exported(base)
  {
  }

  lemma {:induction false} LastPart(path: string, base: string)
    requires '/' !in base
    ensures AfterLast(path + "/" + base, '/') == Some(base)
  {
    NothingAfter(base, '/');
    if path == "" {
      assert "" + "/" + base == ['/'] + base && (['/'] + base)[1..] == base;
    } else {
      LastPart(path[1..], base);
      assert (path + "/" + base)[1..] == path[1..] + "/" + base;
    }
  }
}
