/** Where a certificate is stored: the file name made from a peer id and a domain. */
module CertPaths {
  import opened Text

  const WILDCARD := "wildcard"

  /** The base58 alphabet: letters and digits without `0`, `I`, `O` and `l`. */
  predicate Base58Char(c: char) {
    ('1' <= c <= '9' || 'A' <= c <= 'Z' || 'a' <= c <= 'z') && c != 'I' && c != 'O' && c != 'l'
  }

  /** A peer id as `to_base58` prints it. */
  ghost predicate Base58(peer: string) {
    forall i :: 0 <= i < |peer| ==> Base58Char(peer[i])
  }

  /** `str.replace` of a single character. */
  function Replace(s: string, c: char, subst: string): string {
    if s == "" then "" else (if s[0] == c then subst else [s[0]]) + Replace(s[1..], c, subst)
  }

  function SafeDomain(domain: string): string {
    Replace(Replace(domain, '.', "_"), '*', WILDCARD)
  }

  /** `pathlib` drops empty path components, so a run of slashes is one slash. */
  function Collapse(s: string): string {
    if |s| < 2 then s
    else if s[0] == '/' && s[1] == '/' then Collapse(s[1..])
    else [s[0]] + Collapse(s[1..])
  }

  function CertPath(peer: string, domain: string): string {
    Collapse(peer + "_" + SafeDomain(domain) + ".json")
  }

  // ----- the two replacements as one pass, for any word in the place of `wildcard` -----

  function EncodeChar(c: char, word: string): string {
    if c == '.' then "_" else if c == '*' then word else [c]
  }

  function Encode(domain: string, word: string): string {
    if domain == "" then "" else EncodeChar(domain[0], word) + Encode(domain[1..], word)
  }

  lemma {:induction false} ReplaceIsEncode(domain: string, word: string)
    ensures Replace(Replace(domain, '.', "_"), '*', word) == Encode(domain, word)
  {
    if domain != "" {
      ReplaceIsEncode(domain[1..], word);
      var first := Replace(domain, '.', "_");
      assert first[0] == (if domain[0] == '.' then '_' else domain[0]);
      assert first[1..] == Replace(domain[1..], '.', "_");
    }
  }

  // ----- reading a domain back -----

  /** The first character does not come back: the word cannot overlap itself. */
  ghost predicate Unbordered(word: string) {
    word != "" && '_' !in word && '/' !in word && forall j :: 0 < j < |word| ==> word[j] != word[0]
  }

  /** Reads an encoded domain back, taking the leftmost occurrence of the word each time. */
  function Recover(s: string, word: string): string
    requires word != ""
  {
    if s == "" then ""
    else if word <= s then "*" + Recover(s[|word|..], word)
    else [if s[0] == '_' then '.' else s[0]] + Recover(s[1..], word)
  }

  ghost predicate Contains(s: string, part: string) {
    exists i :: 0 <= i <= |s| && part <= s[i..]
  }

  lemma ContainsTail(s: string, part: string)
    requires s != "" && !Contains(s, part)
    ensures !(part <= s) && !Contains(s[1..], part)
  {
    assert s[0..] == s;
    forall i | 0 <= i <= |s[1..]|
      ensures !(part <= s[1..][i..])
    {
      assert s[1..][i..] == s[i + 1..];
    }
  }

  /**
   An encoded domain that starts with the word, though the domain does not start
   with a star, starts with it because the domain does: no occurrence of the word
   can run into one that a star produced.
   */
  lemma {:induction false} WordIsLiteral(domain: string, word: string, k: nat)
    requires Unbordered(word) && word <= Encode(domain, word) && domain != "" && domain[0] != '*'
    requires k <= |word|
    ensures k <= |domain| && domain[..k] == word[..k]
    ensures Encode(domain, word)[k..] == Encode(domain[k..], word)
  {
    if k > 0 {
      var j := k - 1;
      WordIsLiteral(domain, word, j);
      var rest := domain[j..];
      assert Encode(rest, word)[0] == word[j];
      assert EncodeChar(rest[0], word) == [word[j]];
      assert domain[..k] == domain[..j] + [domain[j]];
      assert rest[1..] == domain[k..];
      assert Encode(domain, word)[k..] == Encode(rest, word)[1..];
    }
  }

  lemma NoFalseWord(domain: string, word: string)
    requires Unbordered(word) && domain != "" && domain[0] != '*' && word <= Encode(domain, word)
    ensures word <= domain
  {
    WordIsLiteral(domain, word, |word|);
    assert word[..|word|] == word;
  }

  ghost predicate CleanName(domain: string, word: string) {
    '_' !in domain && !Contains(domain, word)
  }

  lemma RecoverStar(s: string, word: string)
    requires word != ""
    ensures Recover(word + s, word) == "*" + Recover(s, word)
  {
    assert (word + s)[|word|..] == s;
  }

  lemma RecoverOther(c: char, s: string, word: string)
    requires word != "" && !(word <= [c] + s)
    ensures Recover([c] + s, word) == [if c == '_' then '.' else c] + Recover(s, word)
  {
    assert ([c] + s)[1..] == s;
  }

  /** A domain without underscore and without the word can be read back from its encoding. */
  lemma {:induction false} EncodeRoundTrip(domain: string, word: string)
    requires Unbordered(word) && CleanName(domain, word)
    ensures Recover(Encode(domain, word), word) == domain
  {
    if domain == "" {
      assert Encode(domain, word) == "";
    } else {
      var rest := Encode(domain[1..], word);
      ContainsTail(domain, word);
      EncodeRoundTrip(domain[1..], word);
      assert domain == [domain[0]] + domain[1..];
      if domain[0] == '*' {
        RecoverStar(rest, word);
      } else {
        if word <= Encode(domain, word) {
          NoFalseWord(domain, word);
          assert false;
        }
        RecoverOther(if domain[0] == '.' then '_' else domain[0], rest, word);
      }
    }
  }

  // ----- when two paths coincide -----

  ghost predicate NoDoubleSlash(s: string) {
    forall i :: 0 <= i < |s| - 1 ==> !(s[i] == '/' && s[i + 1] == '/')
  }

  lemma {:induction false} CollapseKeeps(s: string)
    requires NoDoubleSlash(s)
    ensures Collapse(s) == s
  {
    if |s| >= 2 {
      CollapseKeeps(s[1..]);
    }
  }

  /** Collapsing works separately on each side of a character that is no slash. */
  lemma {:induction false} CollapseSplit(a: string, c: char, b: string)
    requires c != '/'
    ensures Collapse(a + [c] + b) == Collapse(a) + [c] + Collapse(b)
  {
    var s := a + [c] + b;
    if a == "" {
      assert s[1..] == b;
    } else {
      assert s[1..] == a[1..] + [c] + b;
      CollapseSplit(a[1..], c, b);
    }
  }

  lemma Base58Plain(peer: string)
    requires Base58(peer)
    ensures '_' !in peer && Collapse(peer) == peer
  {
  }

  lemma PathParts(peer: string, safe: string)
    requires Base58(peer)
    ensures Collapse(peer + "_" + safe + ".json") == peer + "_" + Collapse(safe) + ".json"
  {
    Base58Plain(peer);
    var tail := safe + ['.'] + "json";
    assert safe + ".json" == tail;
    assert peer + "_" + safe + ".json" == peer + ['_'] + tail;
    CollapseSplit(peer, '_', tail);
    CollapseSplit(safe, '.', "json");
    CollapseKeeps("json");
    assert Collapse(safe) + ['.'] + "json" == Collapse(safe) + ".json";
  }

  /** Exactly when two keys share a file: same peer, and domains that encode alike up to repeated slashes. */
  lemma PathsCoincide(p: string, d: string, q: string, e: string)
    requires Base58(p) && Base58(q)
    ensures CertPath(p, d) == CertPath(q, e) <==> p == q && Collapse(SafeDomain(d)) == Collapse(SafeDomain(e))
  {
    PathParts(p, SafeDomain(d));
    PathParts(q, SafeDomain(e));
    hide SafeDomain;
    Base58Plain(p);
    Base58Plain(q);
    var x, y := Collapse(SafeDomain(d)), Collapse(SafeDomain(e));
    if CertPath(p, d) == CertPath(q, e) {
      assert p + "_" + x == CertPath(p, d)[..|CertPath(p, d)| - |".json"|];
      assert q + "_" + y == CertPath(q, e)[..|CertPath(q, e)| - |".json"|];
      FirstSeparator('_', p, x, q, y);
    }
  }

  // ----- the exact condition for domains without underscore and without the word -----

  /** Collapsing leaves a part without slashes as it is. */
  lemma {:induction false} CollapseAfter(u: string, s: string)
    requires '/' !in u
    ensures Collapse(u + s) == u + Collapse(s)
  {
    if u == "" {
      assert u + s == s;
    } else {
      assert (u + s)[1..] == u[1..] + s;
      CollapseAfter(u[1..], s);
    }
  }

  lemma CollapseSlash(s: string)
    ensures Collapse("/" + s) == if s != "" && s[0] == '/' then Collapse(s) else "/" + Collapse(s)
  {
    assert ("/" + s)[1..] == s;
  }

  lemma EncodeCons(c: char, rest: string, word: string)
    ensures Encode([c] + rest, word) == EncodeChar(c, word) + Encode(rest, word)
  {
    assert ([c] + rest)[1..] == rest;
  }

  lemma EncodeStart(rest: string, word: string)
    requires Unbordered(word)
    ensures Encode("", word) == "" == Collapse("")
    ensures Encode(rest, word) != "" && Encode(rest, word)[0] == '/' <==> rest != "" && rest[0] == '/'
  {
  }

  /** Encoding and collapsing commute: the word brings no slash with it. */
  lemma {:induction false} CollapseEncode(domain: string, word: string)
    requires Unbordered(word)
    ensures Collapse(Encode(domain, word)) == Encode(Collapse(domain), word)
  {
    hide Collapse, Encode;
    EncodeStart("", word);
    if domain != "" {
      var c, rest := domain[0], domain[1..];
      assert domain == [c] + rest;
      CollapseEncode(rest, word);
      EncodeCons(c, rest, word);
      EncodeCons(c, Collapse(rest), word);
      if c == '/' {
        EncodeStart(rest, word);
        CollapseSlash(rest);
        CollapseSlash(Encode(rest, word));
      } else {
        CollapseAfter(EncodeChar(c, word), Encode(rest, word));
        CollapseAfter([c], rest);
      }
    }
  }

  lemma {:induction false} CollapseHead(s: string)
    requires s != ""
    ensures Collapse(s) != "" && Collapse(s)[0] == s[0]
  {
    if |s| >= 2 {
      CollapseHead(s[1..]);
    }
  }

  /** A part without slashes at the front of the collapsed text was at the front before. */
  lemma {:induction false} CollapseKeepsFront(s: string, u: string)
    requires '/' !in u && u <= Collapse(s)
    ensures u <= s
  {
    if u != "" && |s| >= 2 {
      CollapseHead(s);
      CollapseKeepsFront(s[1..], u[1..]);
    }
  }

  lemma {:induction false} CollapseKeepsClean(domain: string, word: string)
    requires Unbordered(word) && CleanName(domain, word)
    ensures CleanName(Collapse(domain), word)
  {
    if domain != "" {
      ContainsTail(domain, word);
      CollapseKeepsClean(domain[1..], word);
      var c := Collapse(domain);
      forall i | 0 <= i <= |c|
        ensures !(word <= c[i..])
      {
        if i == 0 {
          assert c[0..] == c;
          if word <= c {
            CollapseKeepsFront(domain, word);
          }
        } else if c != Collapse(domain[1..]) && |domain| > 1 {
          assert c[i..] == Collapse(domain[1..])[i - 1..];
        }
      }
    }
  }

  /** A domain can be read back from its path up to repeated slashes. */
  lemma DomainRecovered(domain: string)
    requires CleanName(domain, WILDCARD)
    ensures Recover(Collapse(SafeDomain(domain)), WILDCARD) == Collapse(domain)
    ensures Collapse(SafeDomain(domain)) == Encode(Collapse(domain), WILDCARD)
  {
    assert Unbordered(WILDCARD);
    ReplaceIsEncode(domain, WILDCARD);
    CollapseEncode(domain, WILDCARD);
    CollapseKeepsClean(domain, WILDCARD);
    EncodeRoundTrip(Collapse(domain), WILDCARD);
  }

  /**
   Two keys whose domains hold no underscore and no `wildcard` share a file exactly
   when the peers are equal and the domains are equal up to repeated slashes.
   */
  lemma CertPathInjective(p: string, d: string, q: string, e: string)
    requires Base58(p) && Base58(q) && CleanName(d, WILDCARD) && CleanName(e, WILDCARD)
    ensures CertPath(p, d) == CertPath(q, e) <==> p == q && Collapse(d) == Collapse(e)
  {
    PathsCoincide(p, d, q, e);
    DomainRecovered(d);
    DomainRecovered(e);
  }

  ghost predicate CleanDomain(domain: string) {
    CleanName(domain, WILDCARD) && NoDoubleSlash(domain)
  }

  /** So distinct keys whose domains hold no doubled slash either never share one. */
  lemma CleanDomainsNeverShare(p: string, d: string, q: string, e: string)
    requires Base58(p) && Base58(q) && CleanDomain(d) && CleanDomain(e)
    ensures CertPath(p, d) == CertPath(q, e) <==> p == q && d == e
  {
    CertPathInjective(p, d, q, e);
    CollapseKeeps(d);
    CollapseKeeps(e);
  }

  // ----- none of the three exclusions can be dropped -----

  lemma {:induction false} EncodeAppend(a: string, b: string, word: string)
    ensures Encode(a + b, word) == Encode(a, word) + Encode(b, word)
  {
    if a == "" {
      assert a + b == b;
    } else {
      assert (a + b)[1..] == a[1..] + b;
      EncodeAppend(a[1..], b, word);
    }
  }

  lemma {:induction false} EncodeLiteral(domain: string, word: string)
    requires '.' !in domain && '*' !in domain
    ensures Encode(domain, word) == domain
  {
    if domain != "" {
      EncodeLiteral(domain[1..], word);
      assert domain == [domain[0]] + domain[1..];
    }
  }

  /** A domain without dots, stars and doubled slashes stands in its path as it is. */
  lemma PlainPath(peer: string, domain: string)
    requires Base58(peer) && '.' !in domain && '*' !in domain && NoDoubleSlash(domain)
    ensures CertPath(peer, domain) == peer + "_" + domain + ".json"
  {
    ReplaceIsEncode(domain, WILDCARD);
    EncodeLiteral(domain, WILDCARD);
    CollapseKeeps(domain);
    PathParts(peer, SafeDomain(domain));
  }

  /** Parts that encode alike can stand for each other anywhere in a domain. */
  lemma EncodeInContext(host: string, x: string, y: string, zone: string)
    requires Encode(x, WILDCARD) == Encode(y, WILDCARD)
    ensures SafeDomain(host + x + zone) == SafeDomain(host + y + zone)
  {
    forall part | part in {x, y}
      ensures SafeDomain(host + part + zone) == Encode(host, WILDCARD) + Encode(part, WILDCARD) + Encode(zone, WILDCARD)
    {
      ReplaceIsEncode(host + part + zone, WILDCARD);
      EncodeAppend(host + part, zone, WILDCARD);
      EncodeAppend(host, part, WILDCARD);
    }
  }

  lemma {:induction false} SlashesCollapse(host: string, zone: string)
    ensures Collapse(host + "//" + zone) == Collapse(host + "/" + zone)
  {
    var two, one := host + "//" + zone, host + "/" + zone;
    if host == "" {
      assert two[1..] == one;
    } else {
      assert two[1..] == host[1..] + "//" + zone && one[1..] == host[1..] + "/" + zone;
      SlashesCollapse(host[1..], zone);
    }
  }

  /**
   None of the three exclusions can be dropped, whatever the peer and wherever in
   the domain: a dot shares its file with an underscore in its place, `*` with
   `wildcard`, and a doubled slash with a single one.
   */
  lemma CollidingDomains(peer: string, host: string, zone: string)
    requires Base58(peer)
    ensures CertPath(peer, host + "." + zone) == CertPath(peer, host + "_" + zone)
    ensures CertPath(peer, host + "*" + zone) == CertPath(peer, host + "wildcard" + zone)
    ensures CertPath(peer, host + "//" + zone) == CertPath(peer, host + "/" + zone)
  {
    hide SafeDomain;
    EncodeDot();
    EncodeInContext(host, ".", "_", zone);
    EncodeStar();
    EncodeInContext(host, "*", "wildcard", zone);
    SlashesShareFile(peer, host, zone);
  }

  lemma EncodeDot()
    ensures Encode(".", WILDCARD) == Encode("_", WILDCARD)
  {
    assert "."[1..] == "" == "_"[1..];
  }

  lemma EncodeStar()
    ensures Encode("*", WILDCARD) == Encode("wildcard", WILDCARD)
  {
    WordForStar(WILDCARD);
  }

  lemma WordForStar(word: string)
    requires '.' !in word && '*' !in word
    ensures Encode("*", word) == Encode(word, word)
  {
    EncodeLiteral(word, word);
    assert "*"[1..] == "";
  }

  lemma SlashesShareFile(peer: string, host: string, zone: string)
    requires Base58(peer)
    ensures CertPath(peer, host + "//" + zone) == CertPath(peer, host + "/" + zone)
  {
    var two, one := host + "//" + zone, host + "/" + zone;
    SlashesCollapse(host, zone);
    assert Unbordered(WILDCARD);
    CollapseEncode(two, WILDCARD);
    CollapseEncode(one, WILDCARD);
    ReplaceIsEncode(two, WILDCARD);
    ReplaceIsEncode(one, WILDCARD);
    PathsCoincide(peer, two, peer, one);
  }
}
