/** The domain classifier: hostname normalisation and the suffix match of a
    hostname against the distracting and the productive domain lists. */
module DomainChecker {
  import opened Prelude

  /** The two parts of a parsed URL the extension looks at. Parsing itself
      (`new URL`) is outside the model: a URL that does not parse is `None`. */
  datatype Url = Url(protocol: string, hostname: string)

  /** The two lists as they are held after loading. */
  datatype DomainLists = DomainLists(distracting: seq<string>, productive: seq<string>)

  predicate IsLoaded(lists: DomainLists) {
    (forall i :: 0 <= i < |lists.distracting| ==> IsLower(lists.distracting[i])) &&
    (forall i :: 0 <= i < |lists.productive| ==> IsLower(lists.productive[i]))
  }

  /** Both lists are lowercased once, when the module is loaded. */
  function LoadList(raw: seq<string>): (r: seq<string>)
    ensures |r| == |raw|
    ensures forall i :: 0 <= i < |raw| ==> r[i] == Lower(raw[i])
  {
    if raw == [] then [] else [Lower(raw[0])] + LoadList(raw[1..])
  }

  function Load(rawDistracting: seq<string>, rawProductive: seq<string>): (lists: DomainLists)
    ensures |lists.distracting| == |rawDistracting|
    ensures forall i :: 0 <= i < |rawDistracting| ==> lists.distracting[i] == Lower(rawDistracting[i])
    ensures |lists.productive| == |rawProductive|
    ensures forall i :: 0 <= i < |rawProductive| ==> lists.productive[i] == Lower(rawProductive[i])
  {
    DomainLists(LoadList(rawDistracting), LoadList(rawProductive))
  }

  lemma LoadIsLowercase(rawDistracting: seq<string>, rawProductive: seq<string>)
    ensures IsLoaded(Load(rawDistracting, rawProductive))
  {
    var lists := Load(rawDistracting, rawProductive);
    forall i | 0 <= i < |lists.distracting| ensures IsLower(lists.distracting[i]) {
      LowerIsLower(rawDistracting[i]);
    }
    forall i | 0 <= i < |lists.productive| ensures IsLower(lists.productive[i]) {
      LowerIsLower(rawProductive[i]);
    }
  }

  /** Removes one leading "www." (case-sensitive), then lowercases. */
  function NormalizeHostName(hostname: string): (r: string)
    ensures IsLower(r)
  {
    LowerIsLower(if StartsWith(hostname, "www.") then hostname[4..] else hostname);
    if StartsWith(hostname, "www.") then Lower(hostname[4..]) else Lower(hostname)
  }

  /** Exactly one "www." is stripped, whatever follows it. */
  lemma NormalizeStripsOnePrefix(rest: string)
    ensures NormalizeHostName("www." + rest) == Lower(rest)
  {
    assert StartsWith("www." + rest, "www.");
    assert ("www." + rest)[4..] == rest;
  }

  /** Without a leading lowercase "www." the hostname is only lowercased. */
  lemma NormalizeWithoutPrefix(hostname: string)
    requires !StartsWith(hostname, "www.")
    ensures NormalizeHostName(hostname) == Lower(hostname)
  {
  }

  lemma NormalizeExamples()
    ensures NormalizeHostName("www.www.a.com") == "www.a.com"
    ensures NormalizeHostName("WWW.Reddit.com") == "www.reddit.com"
  {
    NormalizeStripsOnePrefix("www.a.com");
    assert Lower("www.a.com") == "www.a.com" by { LowerOfLower("www.a.com"); }
    UppercaseWwwIsKept();
  }

  /** The strip is case-sensitive: an upper-case "WWW." is only lowercased. */
  lemma UppercaseWwwIsKept()
    ensures NormalizeHostName("WWW.Reddit.com") == "www.reddit.com"
  {
    var h := "WWW.Reddit.com";
    assert !StartsWith(h, "www.") by {
      assert h[0] != 'w';
    }
    NormalizeWithoutPrefix(h);
    assert Lower(h) == "www.reddit.com" by {
      assert forall i :: 0 <= i < |h| ==> Lower(h)[i] == "www.reddit.com"[i];
    }
  }

  /** The rule for one list entry: the same host, or a subdomain of it. */
  predicate Matches(hostname: string, domain: string) {
    hostname == domain || EndsWith(hostname, "." + domain)
  }

  /** Matching means: the domain itself, or some sub sequence, a dot, then the domain. */
  lemma MatchesIff(hostname: string, domain: string)
    ensures Matches(hostname, domain) <==>
            hostname == domain || exists x :: hostname == x + "." + domain
  {
    EndsWithIff(hostname, "." + domain);
    if exists x :: hostname == x + ("." + domain) {
      var x :| hostname == x + ("." + domain);
      assert hostname == x + "." + domain;
    }
    if exists x :: hostname == x + "." + domain {
      var x :| hostname == x + "." + domain;
      assert hostname == x + ("." + domain);
    }
  }

  /** The match respects the dot boundary: a host that is the domain with
      letters glued in front (no dot before the domain) does not match. */
  lemma {:induction false} DotBoundary(prefix: string, domain: string)
    requires prefix != [] && prefix[|prefix| - 1] != '.'
    ensures !Matches(prefix + domain, domain)
  {
    var h := prefix + domain;
    assert h != domain by { assert |h| > |domain|; }
    assert !EndsWith(h, "." + domain) by {
      if |"." + domain| <= |h| {
        var k := |h| - |domain| - 1;
        assert h[k] == prefix[|prefix| - 1];
        assert h[k..][0] == h[k];
      }
    }
  }

  lemma DotBoundaryExamples()
    ensures !Matches("notreddit.com", "reddit.com")
    ensures Matches("m.reddit.com", "reddit.com")
    ensures Matches("reddit.com", "reddit.com")
  {
    assert "notreddit.com" == "not" + "reddit.com";
    DotBoundary("not", "reddit.com");
    assert "m.reddit.com"[|"m.reddit.com"| - |".reddit.com"|..] == ".reddit.com";
  }

  /** Subdomain closure: a match stays a match under any further sub. */
  lemma SubdomainClosure(sub: string, hostname: string, domain: string)
    requires Matches(hostname, domain)
    ensures Matches(sub + "." + hostname, domain)
  {
    if hostname == domain {
      EndsWithPrepend(sub, "." + hostname, "." + domain);
      assert sub + "." + hostname == sub + ("." + hostname);
    } else {
      EndsWithPrepend(sub + ".", hostname, "." + domain);
    }
  }

  /** `Array.prototype.some` with the match rule. */
  function AnyMatch(hostname: string, domains: seq<string>): (r: bool)
    ensures r <==> exists i :: 0 <= i < |domains| && Matches(hostname, domains[i])
  {
    if domains == [] then false
    else if Matches(hostname, domains[0]) then true
    else
      var rest := AnyMatch(hostname, domains[1..]);
      assert forall i :: 1 <= i < |domains| ==> domains[i] == domains[1..][i - 1];
      rest
  }

  /** The classification of a URL against one loaded list; a URL that does not
      parse classifies as false. */
  function Classify(url: Option<Url>, domains: seq<string>): (r: bool)
    ensures r <==> url.Some? &&
                   exists i :: 0 <= i < |domains| && Matches(NormalizeHostName(url.value.hostname), domains[i])
  {
    match url
    case None => false
    case Some(u) => AnyMatch(NormalizeHostName(u.hostname), domains)
  }

  function IsDistractingDomain(url: Option<Url>, lists: DomainLists): (r: bool)
    ensures r <==> url.Some? &&
                   exists i :: 0 <= i < |lists.distracting| &&
                               Matches(NormalizeHostName(url.value.hostname), lists.distracting[i])
  {
    Classify(url, lists.distracting)
  }

  function IsProductiveDomain(url: Option<Url>, lists: DomainLists): (r: bool)
    ensures r <==> url.Some? &&
                   exists i :: 0 <= i < |lists.productive| &&
                               Matches(NormalizeHostName(url.value.hostname), lists.productive[i])
  {
    Classify(url, lists.productive)
  }

  /** The two predicates are one rule applied to two lists: swapping the lists swaps them. */
  lemma ProductiveIsDistractingOfSwapped(url: Option<Url>, lists: DomainLists)
    ensures IsProductiveDomain(url, lists) ==
            IsDistractingDomain(url, DomainLists(lists.productive, lists.distracting))
  {
  }

  /** A host matching after normalisation also matches before the strip:
      putting "www." back in front is one more subdomain label. */
  lemma NormalizedMatchLower(hostname: string, domain: string)
    requires Matches(NormalizeHostName(hostname), domain)
    ensures Matches(Lower(hostname), domain)
  {
    if StartsWith(hostname, "www.") {
      var rest := hostname[4..];
      var n := Lower(rest);
      SubdomainClosure("www", n, domain);
      assert "www" + "." + n == "www." + n;
      assert Matches("www." + n, domain);
      assert hostname == "www." + rest;
      LowerWww(rest);
    }
  }

  lemma LowerWww(rest: string)
    ensures Lower("www." + rest) == "www." + Lower(rest)
  {
    LowerConcat("www.", rest);
    assert Lower("www.") == "www." by {
      assert forall k :: 0 <= k < 4 ==> Lower("www.")[k] == "www."[k];
    }
  }

  lemma LowerDotJoin(a: string, b: string)
    ensures Lower(a + "." + b) == Lower(a) + "." + Lower(b)
  {
    assert a + "." + b == a + ("." + b);
    LowerConcat(a, "." + b);
    LowerConcat(".", b);
    assert Lower(".") == ".";
  }

  /** Prepending a label keeps the normalised host matching, whether or not
      the result starts with "www.". */
  lemma NormalizeSubdomain(sub: string, hostname: string, domain: string)
    requires Matches(Lower(hostname), domain)
    ensures Matches(NormalizeHostName(sub + "." + hostname), domain)
  {
    var full := sub + "." + hostname;
    if StartsWith(full, "www.") {
      if |sub| <= 3 {
        assert full[|sub|] == '.' && full[..4] == "www.";
        assert |sub| == 3;
        assert full[4..] == hostname;
      } else {
        assert full[4..] == sub[4..] + "." + hostname;
        LowerDotJoin(sub[4..], hostname);
        SubdomainClosure(Lower(sub[4..]), Lower(hostname), domain);
      }
    } else {
      LowerDotJoin(sub, hostname);
      SubdomainClosure(Lower(sub), Lower(hostname), domain);
    }
  }

  /** A subdomain of a classified host is classified the same way, whether or
      not either of them carries a leading "www.". */
  lemma {:induction false} ClassifySubdomain(sub: string, u: Url, domains: seq<string>)
    requires Classify(Some(u), domains)
    ensures Classify(Some(Url(u.protocol, sub + "." + u.hostname)), domains)
  {
    var i :| 0 <= i < |domains| && Matches(NormalizeHostName(u.hostname), domains[i]);
    NormalizedMatchLower(u.hostname, domains[i]);
    NormalizeSubdomain(sub, u.hostname, domains[i]);
  }

  /** The common case: once reddit.com is classified, so is www.reddit.com. */
  lemma WwwOfClassified(u: Url, domains: seq<string>)
    requires Classify(Some(u), domains)
    ensures Classify(Some(Url(u.protocol, "www." + u.hostname)), domains)
  {
    ClassifySubdomain("www", u, domains);
    assert "www" + "." + u.hostname == "www." + u.hostname;
  }

  /** Entries are lowercased at load, so their letter case does not matter. */
  lemma EntryCaseInsensitive(url: Option<Url>, raw1: seq<string>, raw2: seq<string>)
    requires |raw1| == |raw2|
    requires forall i :: 0 <= i < |raw1| ==> Lower(raw1[i]) == Lower(raw2[i])
    ensures Classify(url, LoadList(raw1)) == Classify(url, LoadList(raw2))
  {
    assert LoadList(raw1) == LoadList(raw2);
  }

  /** A mixed-case hostname with a leading "www." matches a mixed-case entry. */
  lemma MixedCaseExample()
    ensures IsDistractingDomain(Some(Url("https:", "www.Reddit.com")), Load(["Reddit.COM"], []))
  {
    var lists := Load(["Reddit.COM"], []);
    assert Lower("Reddit.COM") == "reddit.com" by {
      assert forall i :: 0 <= i < 10 ==> Lower("Reddit.COM")[i] == "reddit.com"[i];
    }
    assert lists.distracting[0] == "reddit.com";
    NormalizeStripsOnePrefix("Reddit.com");
    assert Lower("Reddit.com") == "reddit.com" by {
      assert forall i :: 0 <= i < 10 ==> Lower("Reddit.com")[i] == "reddit.com"[i];
    }
    assert Matches(NormalizeHostName("www.Reddit.com"), lists.distracting[0]);
  }
}
