/** The HTTP variant and retry loop of internal/adapters/runner/runner.go. The transport is an input:
    what each attempt at each URL yields, and during which waits the context ends. */
module HttpCheck {
  import opened Wrappers
  import opened Text

  /** A URL in the parts the variants touch: `prefix` is everything before the host and `suffix`
      everything after the path. */
  datatype Url = Url(prefix: string, hostname: string, port: string, path: string, suffix: string) {
    function Text(): string {
      prefix + HostPort(hostname, port) + path + suffix
    }
  }

  function HostPort(hostname: string, port: string): string {
    (if ':' in hostname then "[" + hostname + "]" else hostname) + (if port == "" then "" else ":" + port)
  }

  // ---- Variants ----

  predicate StartsWithWww(s: string) {
    4 < |s| && s[0] in "wW" && s[1] in "wW" && s[2] in "wW" && s[3] == '.'
  }

  /** The same name with or without "www."; empty if there is none. `isIP` is the answer of the
      address parser. */
  function AlternateWWWHostname(hostname: string, isIP: bool): string {
    if hostname == "" || isIP || '.' !in TrimOneDot(hostname) then ""
    else if StartsWithWww(hostname) then hostname[4..]
    else "www." + hostname
  }

  /** Which name is tried beside the given one. There is one unless the name is an address or has no dot but at
      its end; it is what stands behind "www.", in whichever case, or else the name with that in front. */
  lemma AlternateIs(hostname: string, isIP: bool)
    ensures var alternate := AlternateWWWHostname(hostname, isIP);
            && (alternate != "" <==> !isIP && exists i :: 0 <= i < |hostname| - 1 && hostname[i] == '.')
            && (alternate != "" ==>
                  if 4 < |hostname| && SameUpToCase(hostname[..4], "www.") then hostname == hostname[..4] + alternate
                  else alternate == "www." + hostname)
  {
    InnerDotIff(hostname);
    StartsWithWwwIff(hostname);
    if StartsWithWww(hostname) {
      assert hostname == hostname[..4] + hostname[4..];
    }
  }

  lemma InnerDotIff(hostname: string)
    ensures '.' in TrimOneDot(hostname) <==> exists i :: 0 <= i < |hostname| - 1 && hostname[i] == '.'
  {
    var trimmed := TrimOneDot(hostname);
    if i :| 0 <= i < |hostname| - 1 && hostname[i] == '.' {
      assert trimmed[i] == '.';
    }
    if i :| 0 <= i < |trimmed| && trimmed[i] == '.' {
      assert hostname[i] == '.';
    }
  }

  lemma StartsWithWwwIff(hostname: string)
    ensures StartsWithWww(hostname) <==> 4 < |hostname| && SameUpToCase(hostname[..4], "www.")
  {
    if 4 < |hostname| {
      var start := hostname[..4];
      assert SameUpToCase(start, "www.")
        <==> SameLetter(start[0], 'w') && SameLetter(start[1], 'w') && SameLetter(start[2], 'w')
             && SameLetter(start[3], '.');
    }
  }

  function Hostnames(target: Url, isIP: bool): seq<string> {
    var alternate := AlternateWWWHostname(target.hostname, isIP);
    if alternate == "" then [target.hostname] else [target.hostname, alternate]
  }

  function Paths(target: Url): seq<string> {
    if target.path == "" then ["", "/"] else if target.path == "/" then ["/", ""] else [target.path]
  }

  predicate Distinct(urls: seq<Url>) {
    forall i, j | 0 <= i < j < |urls| :: urls[i].Text() != urls[j].Text()
  }

  function Texts(urls: seq<Url>): set<string> {
    set u | u in urls :: u.Text()
  }

  /** The URLs tried, in order: under each path the hostname and then its alternate, an empty path and "/"
      standing in for each other. */
  lemma VariantsAre(target: Url, isIP: bool)
    ensures var alternate := AlternateWWWHostname(target.hostname, isIP);
            var slash := if target.path == "" then "/" else "";
            Variants(target, Hostnames(target, isIP), Paths(target))
            == [target] + (if alternate == "" then [] else [target.(hostname := alternate)])
               + if target.path != "" && target.path != "/" then []
                 else [target.(path := slash)]
                      + if alternate == "" then [] else [target.(hostname := alternate, path := slash)]
  {
    var hosts, paths := Hostnames(target, isIP), Paths(target);
    var first := Row(target, hosts, target.path);
    assert target.(hostname := target.hostname, path := target.path) == target;
    assert paths[..1] == [target.path] && [target.path][..0] == [];
    assert Variants(target, hosts, []) + first == first;
    assert Variants(target, hosts, [target.path]) == first;
    assert |paths| == 1 ==> paths == [target.path];
    assert |paths| == 2 ==> paths[..|paths| - 1] == [target.path];
  }

  lemma OneMoreText(urls: seq<Url>, url: Url)
    requires Distinct(urls) && forall v | v in urls :: v.Text() != url.Text()
    ensures url.Text() !in Texts(urls)
    ensures Distinct(urls + [url]) && Texts(urls + [url]) == Texts(urls) + {url.Text()}
  {
  }

  /** One path under each hostname. */
  function Row(target: Url, hostnames: seq<string>, path: string): seq<Url> {
    seq(|hostnames|, h requires 0 <= h < |hostnames| => target.(hostname := hostnames[h], path := path))
  }

  /** The paths in order, and for each path the hostnames in order. */
  function Variants(target: Url, hostnames: seq<string>, paths: seq<string>): seq<Url> {
    if paths == [] then []
    else Variants(target, hostnames, paths[..|paths| - 1]) + Row(target, hostnames, paths[|paths| - 1])
  }

  lemma AlternateIsFar(hostname: string, isIP: bool)
    requires AlternateWWWHostname(hostname, isIP) != ""
    ensures var a := AlternateWWWHostname(hostname, isIP); |a| == |hostname| + 4 || |a| == |hostname| - 4
    ensures ':' in AlternateWWWHostname(hostname, isIP) <==> ':' in hostname
  {
    if StartsWithWww(hostname) {
      assert hostname == hostname[..4] + hostname[4..];
    }
  }

  lemma TextLength(url: Url)
    ensures |url.Text()| == |url.prefix| + |url.hostname| + (if ':' in url.hostname then 2 else 0)
                            + (if url.port == "" then 0 else 1 + |url.port|) + |url.path| + |url.suffix|
  {
  }

  /** Two variants that differ in hostname or path never read the same. */
  lemma VariantsDiffer(target: Url, isIP: bool, a: Url, b: Url)
    requires a.hostname in Hostnames(target, isIP) && a.path in Paths(target)
    requires b.hostname in Hostnames(target, isIP) && b.path in Paths(target)
    requires a == target.(hostname := a.hostname, path := a.path)
    requires b == target.(hostname := b.hostname, path := b.path)
    requires a != b
    ensures a.Text() != b.Text()
  {
    TextLength(a);
    TextLength(b);
    if AlternateWWWHostname(target.hostname, isIP) != "" {
      AlternateIsFar(target.hostname, isIP);
    }
  }

  lemma {:induction false} VariantsContain(target: Url, hostnames: seq<string>, paths: seq<string>)
    ensures |Variants(target, hostnames, paths)| == |paths| * |hostnames|
    ensures forall v | v in Variants(target, hostnames, paths) ::
              v.hostname in hostnames && v.path in paths && v == target.(hostname := v.hostname, path := v.path)
  {
    if paths != [] {
      var before := paths[..|paths| - 1];
      VariantsContain(target, hostnames, before);
      assert paths == before + [paths[|paths| - 1]];
    }
  }

  method Candidates(target: Url, isIP: bool) returns (hostnames: seq<string>, paths: seq<string>)
    ensures hostnames == Hostnames(target, isIP) && 1 <= |hostnames| <= 2 && hostnames[0] == target.hostname
    ensures paths == Paths(target) && 1 <= |paths| <= 2 && paths[0] == target.path
  {
    hostnames := [target.hostname];
    var alternate := AlternateWWWHostname(target.hostname, isIP);
    if alternate != "" {
      hostnames := hostnames + [alternate];
    }
    paths := [target.path];
    if target.path == "" {
      paths := paths + ["/"];
    } else if target.path == "/" {
      paths := paths + [""];
    }
  }

  /** The variant for path p and hostname h reads like none of those before it. */
  lemma NewVariant(target: Url, isIP: bool, variants: seq<Url>, p: nat, h: nat)
    requires p < |Paths(target)| && h < |Hostnames(target, isIP)|
    requires var hosts := Hostnames(target, isIP);
             variants == Variants(target, hosts, Paths(target)[..p]) + Row(target, hosts, Paths(target)[p])[..h]
    ensures forall v | v in variants ::
              v.Text() != target.(hostname := Hostnames(target, isIP)[h], path := Paths(target)[p]).Text()
  {
    var hosts, paths := Hostnames(target, isIP), Paths(target);
    var variant := target.(hostname := hosts[h], path := paths[p]);
    VariantsContain(target, hosts, paths[..p]);
    if |hosts| == 2 {
      AlternateIsFar(target.hostname, isIP);
    }
    forall v | v in variants ensures v.Text() != variant.Text() {
      if v in Variants(target, hosts, paths[..p]) {
        assert v.path != paths[p];
      } else {
        var k :| 0 <= k < h && v == Row(target, hosts, paths[p])[k];
      }
      VariantsDiffer(target, isIP, v, variant);
    }
  }

  /** What the nested loops have built when they reach hostname h of path p. */
  predicate Collected(target: Url, isIP: bool, p: nat, h: nat, variants: seq<Url>, seen: set<string>)
    requires p < |Paths(target)| && h <= |Hostnames(target, isIP)|
  {
    var hosts, paths := Hostnames(target, isIP), Paths(target);
    && variants == Variants(target, hosts, paths[..p]) + Row(target, hosts, paths[p])[..h]
    && seen == Texts(variants)
    && Distinct(variants)
  }

  lemma CollectOne(target: Url, isIP: bool, p: nat, h: nat, variants: seq<Url>, seen: set<string>)
    requires p < |Paths(target)| && h < |Hostnames(target, isIP)| && Collected(target, isIP, p, h, variants, seen)
    ensures var v := target.(hostname := Hostnames(target, isIP)[h], path := Paths(target)[p]);
            && v.Text() !in seen
            && Collected(target, isIP, p, h + 1, variants + [v], seen + {v.Text()})
  {
    var hosts, paths := Hostnames(target, isIP), Paths(target);
    var v := target.(hostname := hosts[h], path := paths[p]);
    NewVariant(target, isIP, variants, p, h);
    OneMoreText(variants, v);
    assert Row(target, hosts, paths[p])[..h + 1] == Row(target, hosts, paths[p])[..h] + [v];
  }

  lemma RowDone(target: Url, isIP: bool, p: nat, variants: seq<Url>, seen: set<string>)
    requires p < |Paths(target)| && Collected(target, isIP, p, |Hostnames(target, isIP)|, variants, seen)
    ensures variants == Variants(target, Hostnames(target, isIP), Paths(target)[..p + 1])
    ensures p + 1 < |Paths(target)| ==> Collected(target, isIP, p + 1, 0, variants, seen)
  {
    var hosts, paths := Hostnames(target, isIP), Paths(target);
    assert paths[..p + 1][..p] == paths[..p];
    assert Row(target, hosts, paths[p])[..|hosts|] == Row(target, hosts, paths[p]);
  }

  lemma VariantsInAll(target: Url, isIP: bool)
    ensures var all := Variants(target, Hostnames(target, isIP), Paths(target));
            && all != [] && all[0] == target && |all| <= 4
  {
    var hosts, paths := Hostnames(target, isIP), Paths(target);
    VariantsContain(target, hosts, paths);
    assert Variants(target, hosts, paths[..1]) == Row(target, hosts, paths[0]) by { assert paths[..1][..0] == []; }
    if |paths| == 2 {
      assert paths[..1] == paths[..|paths| - 1];
    } else {
      assert paths[..1] == paths;
    }
  }

  /** The inner loop: one path under each hostname. */
  method CollectRow(target: Url, isIP: bool, hostnames: seq<string>, path: string, ghost p: nat,
                    before: seq<Url>, seenBefore: set<string>)
    returns (variants: seq<Url>, seen: set<string>)
    requires p < |Paths(target)| && hostnames == Hostnames(target, isIP) && path == Paths(target)[p]
    requires Collected(target, isIP, p, 0, before, seenBefore)
    ensures Collected(target, isIP, p, |hostnames|, variants, seen)
  {
    variants, seen := before, seenBefore;
    for h := 0 to |hostnames|
      invariant Collected(target, isIP, p, h, variants, seen)
    {
      var variant := target.(hostname := hostnames[h], path := path);
      CollectOne(target, isIP, p, h, variants, seen);
      if variant.Text() in seen {
        continue;
      }
      seen := seen + {variant.Text()};
      variants := variants + [variant];
    }
  }

  method HttpTargetVariants(target: Url, isIP: bool) returns (variants: seq<Url>)
    ensures variants == Variants(target, Hostnames(target, isIP), Paths(target))
    ensures variants != [] && variants[0] == target && |variants| <= 4
    ensures Distinct(variants)
  {
    var hostnames, paths := Candidates(target, isIP);
    var seen: set<string> := {};
    variants := [];
    for p := 0 to |paths|
      invariant p < |paths| ==> Collected(target, isIP, p, 0, variants, seen)
      invariant p == |paths| ==> variants == Variants(target, hostnames, paths) && Distinct(variants)
    {
      variants, seen := CollectRow(target, isIP, hostnames, paths[p], p, variants, seen);
      RowDone(target, isIP, p, variants, seen);
      assert p + 1 == |paths| ==> paths[..p + 1] == paths;
    }
    VariantsInAll(target, isIP);
  }

  // ---- The retry loop ----

  datatype CheckResult = Response(statusCode: int, body: string) | TransportError(reason: string)

  datatype Outcome = Answered(statusCode: int, body: string) | Failed(reason: string) | ContextDone | NoError

  /** The first response a variant gives in its two attempts. */
  function FirstOf(check: (Url, nat) -> CheckResult, url: Url): Option<CheckResult> {
    if check(url, 0).Response? then Some(check(url, 0))
    else if check(url, 1).Response? then Some(check(url, 1)) else None
  }

  predicate Succeeds(check: (Url, nat) -> CheckResult, url: Url) {
    FirstOf(check, url).Some? && 200 <= FirstOf(check, url).value.statusCode < 400
  }

  predicate Interrupted(check: (Url, nat) -> CheckResult, interrupted: Url -> bool, url: Url) {
    check(url, 0).TransportError? && interrupted(url)
  }

  /** The attempts made at one variant: the second one only after a transport error. */
  function AttemptsAt(check: (Url, nat) -> CheckResult, interrupted: Url -> bool, url: Url): seq<(Url, nat)> {
    if check(url, 0).Response? || interrupted(url) then [(url, 0)] else [(url, 0), (url, 1)]
  }

  function AttemptsAtAll(check: (Url, nat) -> CheckResult, interrupted: Url -> bool, urls: seq<Url>): seq<(Url, nat)> {
    if urls == [] then []
    else AttemptsAtAll(check, interrupted, urls[..|urls| - 1]) + AttemptsAt(check, interrupted, urls[|urls| - 1])
  }

  /** The variant at which the search ends: the least one that succeeds or is interrupted. */
  predicate EndsAt(check: (Url, nat) -> CheckResult, interrupted: Url -> bool, urls: seq<Url>, n: nat) {
    && n <= |urls|
    && (forall k | 0 <= k < n :: !Succeeds(check, urls[k]) && !Interrupted(check, interrupted, urls[k]))
    && (n < |urls| ==> Succeeds(check, urls[n]) || Interrupted(check, interrupted, urls[n]))
  }

  /** What the search has to return when it ends at n: an interruption wins over every response; then
      the first success; then the first response of any kind; then the last error. */
  predicate Answers(check: (Url, nat) -> CheckResult, interrupted: Url -> bool, urls: seq<Url>, n: nat,
                    outcome: Outcome)
    requires EndsAt(check, interrupted, urls, n)
  {
    if n < |urls| then
      if Interrupted(check, interrupted, urls[n]) then outcome == ContextDone
      else outcome == Answered(FirstOf(check, urls[n]).value.statusCode, FirstOf(check, urls[n]).value.body)
    else if exists k :: 0 <= k < |urls| && FirstOf(check, urls[k]).Some? then
      exists k :: && 0 <= k < |urls| && FirstOf(check, urls[k]).Some?
                  && (forall i | 0 <= i < k :: FirstOf(check, urls[i]).None?)
                  && outcome == Answered(FirstOf(check, urls[k]).value.statusCode, FirstOf(check, urls[k]).value.body)
    else
      outcome == if urls == [] then NoError else Failed(check(urls[|urls| - 1], 1).reason)
  }

  /** The inner loop: at most two attempts at one variant. */
  method TryVariant(check: (Url, nat) -> CheckResult, interrupted: Url -> bool, url: Url)
    returns (response: Option<CheckResult>, lastErr: Option<string>, cancelled: bool, attempts: seq<(Url, nat)>)
    ensures attempts == AttemptsAt(check, interrupted, url)
    ensures cancelled <==> Interrupted(check, interrupted, url)
    ensures !cancelled ==> response == FirstOf(check, url) && (response.Some? ==> response.value.Response?)
    ensures !cancelled && response.None? ==>
              check(url, 1).TransportError? && lastErr == Some(check(url, 1).reason)
  {
    response, lastErr, cancelled, attempts := None, None, false, [];
    var attempt := 0;
    while attempt < 2
      invariant 0 <= attempt <= 2
      invariant attempts == [(url, 0), (url, 1)][..attempt]
      invariant attempt > 0 ==> check(url, 0).TransportError? && !interrupted(url)
      invariant attempt == 2 ==> check(url, 1).TransportError? && lastErr == Some(check(url, 1).reason)
    {
      var result := check(url, attempt);
      attempts := attempts + [(url, attempt)];
      if result.Response? {
        response := Some(result);
        return;
      }
      lastErr := Some(result.reason);
      if attempt < 1 && interrupted(url) {
        cancelled := true;
        return;
      }
      attempt := attempt + 1;
    }
  }

  /** The first response among the variants before n. */
  predicate FirstResponse(check: (Url, nat) -> CheckResult, urls: seq<Url>, n: nat, first: Option<CheckResult>)
    requires n <= |urls|
  {
    if first.None? then forall k | 0 <= k < n :: FirstOf(check, urls[k]).None?
    else exists k :: 0 <= k < n && FirstOf(check, urls[k]) == first
                  && forall i | 0 <= i < k :: FirstOf(check, urls[i]).None?
  }

  /** What the outer loop knows when it reaches variant n. */
  predicate Searched(check: (Url, nat) -> CheckResult, interrupted: Url -> bool, urls: seq<Url>, n: nat,
                     first: Option<CheckResult>, lastErr: Option<string>)
  {
    && n <= |urls|
    && (forall k | 0 <= k < n :: !Succeeds(check, urls[k]) && !Interrupted(check, interrupted, urls[k]))
    && FirstResponse(check, urls, n, first)
    && (first.None? && 0 < n ==>
          check(urls[n - 1], 1).TransportError? && lastErr == Some(check(urls[n - 1], 1).reason))
  }

  lemma SearchOne(check: (Url, nat) -> CheckResult, interrupted: Url -> bool, urls: seq<Url>, n: nat,
                  first: Option<CheckResult>, lastErr: Option<string>, err: Option<string>)
    requires n < |urls| && Searched(check, interrupted, urls, n, first, lastErr)
    requires !Succeeds(check, urls[n]) && !Interrupted(check, interrupted, urls[n])
    requires FirstOf(check, urls[n]).None? ==>
               check(urls[n], 1).TransportError? && err == Some(check(urls[n], 1).reason)
    ensures Searched(check, interrupted, urls, n + 1, if first.None? then FirstOf(check, urls[n]) else first,
                     if err.Some? then err else lastErr)
  {
  }

  function Conclusion(first: Option<CheckResult>, lastErr: Option<string>): Outcome {
    if first.Some? && first.value.Response? then Answered(first.value.statusCode, first.value.body)
    else if lastErr.Some? then Failed(lastErr.value) else NoError
  }

  /** When every variant was tried, the first response or else the last error is the answer. */
  lemma SearchedAll(check: (Url, nat) -> CheckResult, interrupted: Url -> bool, urls: seq<Url>,
                    first: Option<CheckResult>, lastErr: Option<string>)
    requires urls != [] && Searched(check, interrupted, urls, |urls|, first, lastErr)
    ensures Answers(check, interrupted, urls, |urls|, Conclusion(first, lastErr))
    ensures first.Some? ==> first.value.Response?
  {
    if first.Some? {
      var k :| 0 <= k < |urls| && FirstOf(check, urls[k]) == first
            && forall i | 0 <= i < k :: FirstOf(check, urls[i]).None?;
    }
  }

  lemma AttemptsAtOneMore(check: (Url, nat) -> CheckResult, interrupted: Url -> bool, urls: seq<Url>, n: nat)
    requires n < |urls|
    ensures AttemptsAtAll(check, interrupted, urls[..n + 1])
         == AttemptsAtAll(check, interrupted, urls[..n]) + AttemptsAt(check, interrupted, urls[n])
  {
    assert urls[..n + 1][..n] == urls[..n];
  }

  /** The loop over the variants. It ends early with an outcome, or with what the variants yielded. */
  method SearchVariants(variants: seq<Url>, check: (Url, nat) -> CheckResult, interrupted: Url -> bool)
    returns (early: Option<Outcome>, firstResponse: Option<CheckResult>, lastErr: Option<string>,
             attempts: seq<(Url, nat)>, end: nat)
    ensures early.Some? ==> end < |variants| && EndsAt(check, interrupted, variants, end)
    ensures early.Some? ==> Answers(check, interrupted, variants, end, early.value)
    ensures early.None? ==> end == |variants| && Searched(check, interrupted, variants, end, firstResponse, lastErr)
    ensures attempts == AttemptsAtAll(check, interrupted, if early.Some? then variants[..end + 1] else variants)
  {
    attempts, end, early, firstResponse, lastErr := [], 0, None, None, None;
    while end < |variants|
      invariant Searched(check, interrupted, variants, end, firstResponse, lastErr)
      invariant attempts == AttemptsAtAll(check, interrupted, variants[..end]) && early.None?
    {
      var response, err, cancelled, tried := TryVariant(check, interrupted, variants[end]);
      attempts := attempts + tried;
      AttemptsAtOneMore(check, interrupted, variants, end);
      if cancelled {
        early := Some(ContextDone);
        return;
      }
      if response.Some? && 200 <= response.value.statusCode < 400 {
        early := Some(Answered(response.value.statusCode, response.value.body));
        return;
      }
      SearchOne(check, interrupted, variants, end, firstResponse, lastErr, err);
      if firstResponse.None? {
        firstResponse := response;
      }
      if err.Some? {
        lastErr := err;
      }
      end := end + 1;
    }
    assert variants[..end] == variants;
  }

  method PerformHTTPRequest(target: Url, isIP: bool, check: (Url, nat) -> CheckResult, interrupted: Url -> bool)
    returns (outcome: Outcome, variants: seq<Url>, attempts: seq<(Url, nat)>, end: nat)
    ensures variants == Variants(target, Hostnames(target, isIP), Paths(target))
    ensures EndsAt(check, interrupted, variants, end) && Answers(check, interrupted, variants, end, outcome)
    ensures attempts == AttemptsAtAll(check, interrupted, if end < |variants| then variants[..end + 1] else variants)
  {
    variants := HttpTargetVariants(target, isIP);
    var early, firstResponse, lastErr;
    early, firstResponse, lastErr, attempts, end := SearchVariants(variants, check, interrupted);
    if early.Some? {
      return early.value, variants, attempts, end;
    }
    SearchedAll(check, interrupted, variants, firstResponse, lastErr);
    if firstResponse.Some? {
      outcome := Answered(firstResponse.value.statusCode, firstResponse.value.body);
    } else if lastErr.Some? {
      outcome := Failed(lastErr.value);
    } else {
      outcome := NoError;
    }
  }

  /** Without cancellation the outcome is decided by the responses alone. */
  lemma UninterruptedOutcome(check: (Url, nat) -> CheckResult, urls: seq<Url>, n: nat, outcome: Outcome)
    requires urls != [] && EndsAt(check, _ => false, urls, n) && Answers(check, _ => false, urls, n, outcome)
    ensures outcome.Answered? || outcome.Failed?
    ensures outcome.Failed? <==> forall k | 0 <= k < |urls| :: FirstOf(check, urls[k]).None?
    ensures outcome.Answered? && 200 <= outcome.statusCode < 400
       <==> exists k :: 0 <= k < |urls| && Succeeds(check, urls[k])
  {
    if n == |urls| {
      forall k | 0 <= k < |urls| ensures !Succeeds(check, urls[k]) {
        assert !Interrupted(check, _ => false, urls[k]);
      }
    }
  }

  /** What a variant answers: its first response or, after a transport error, its second. */
  predicate Responds(check: (Url, nat) -> CheckResult, url: Url, statusCode: int, body: string) {
    || check(url, 0) == Response(statusCode, body)
    || (check(url, 0).TransportError? && check(url, 1) == Response(statusCode, body))
  }

  lemma RespondsIff(check: (Url, nat) -> CheckResult, url: Url, statusCode: int, body: string)
    ensures FirstOf(check, url) == Some(Response(statusCode, body)) <==> Responds(check, url, statusCode, body)
    ensures FirstOf(check, url).None? <==> check(url, 0).TransportError? && check(url, 1).TransportError?
    ensures Responds(check, url, statusCode, body) ==> (Succeeds(check, url) <==> 200 <= statusCode <= 399)
  {
  }

  /** A status that ends the search. */
  predicate GoodStatus(statusCode: int) {
    200 <= statusCode <= 399
  }

  /** The search goes on past a variant: its answer, if it gives one, has no good status, and the context does
      not end in the pause before its second attempt. */
  predicate GoesOn(check: (Url, nat) -> CheckResult, interrupted: Url -> bool, url: Url) {
    match (check(url, 0), check(url, 1))
    case (Response(statusCode, _), _) => !GoodStatus(statusCode)
    case (TransportError(_), Response(statusCode, _)) => !interrupted(url) && !GoodStatus(statusCode)
    case (TransportError(_), TransportError(_)) => !interrupted(url)
  }

  lemma GoesOnIff(check: (Url, nat) -> CheckResult, interrupted: Url -> bool, url: Url)
    ensures GoesOn(check, interrupted, url) <==> !Succeeds(check, url) && !Interrupted(check, interrupted, url)
  {
  }

  /** The outcome, if the search goes on past every variant before the k-th and stops there: the end of the
      context if its first attempt failed and the pause was cut short, and otherwise its answer. */
  lemma StopsAt(check: (Url, nat) -> CheckResult, interrupted: Url -> bool, urls: seq<Url>, n: nat,
                outcome: Outcome, k: nat)
    requires EndsAt(check, interrupted, urls, n) && Answers(check, interrupted, urls, n, outcome)
    requires k < |urls| && !GoesOn(check, interrupted, urls[k])
    requires forall i | 0 <= i < k :: GoesOn(check, interrupted, urls[i])
    ensures n == k
    ensures match (check(urls[k], 0), check(urls[k], 1))
            case (Response(statusCode, body), _) => outcome == Answered(statusCode, body)
            case (TransportError(_), second) =>
              if interrupted(urls[k]) || second.TransportError? then outcome == ContextDone
              else outcome == Answered(second.statusCode, second.body)
  {
    GoesOnIff(check, interrupted, urls[k]);
    forall i | 0 <= i < k ensures !Succeeds(check, urls[i]) && !Interrupted(check, interrupted, urls[i]) {
      GoesOnIff(check, interrupted, urls[i]);
    }
  }

  /** The outcome, if the search goes on past all of them: the first answer given or, if there is none, the error
      of the last attempt. */
  lemma StopsNowhere(check: (Url, nat) -> CheckResult, interrupted: Url -> bool, urls: seq<Url>, n: nat,
                     outcome: Outcome)
    requires urls != [] && EndsAt(check, interrupted, urls, n) && Answers(check, interrupted, urls, n, outcome)
    requires forall i | 0 <= i < |urls| :: GoesOn(check, interrupted, urls[i])
    ensures n == |urls|
    ensures forall k, statusCode, body | && 0 <= k < |urls| && Responds(check, urls[k], statusCode, body)
                                         && forall i | 0 <= i < k :: Silent(check, urls[i]) ::
              outcome == Answered(statusCode, body)
    ensures (forall i | 0 <= i < |urls| :: Silent(check, urls[i])) ==>
              check(urls[|urls| - 1], 1).TransportError? && outcome == Failed(check(urls[|urls| - 1], 1).reason)
  {
    forall i | 0 <= i < |urls| ensures !Succeeds(check, urls[i]) && !Interrupted(check, interrupted, urls[i]) {
      GoesOnIff(check, interrupted, urls[i]);
    }
    assert forall i | 0 <= i < |urls| :: FirstOf(check, urls[i]).None? <==> Silent(check, urls[i]);
  }

  /** Both attempts at a variant end in a transport error. */
  predicate Silent(check: (Url, nat) -> CheckResult, url: Url) {
    check(url, 0).TransportError? && check(url, 1).TransportError?
  }

  /** Which attempts are made at the variants: the first one at each, and the second one exactly after a transport
      error, unless the context ended in the pause between them. */
  lemma {:induction false} AttemptedIff(check: (Url, nat) -> CheckResult, interrupted: Url -> bool, urls: seq<Url>,
                                        url: Url, n: nat)
    ensures (url, n) in AttemptsAtAll(check, interrupted, urls)
       <==> url in urls && (n == 0 || (n == 1 && check(url, 0).TransportError? && !interrupted(url)))
  {
    if urls != [] {
      AttemptedIff(check, interrupted, urls[..|urls| - 1], url, n);
    }
  }

  /** Attempt k is one of at most two at its url, and a second one comes right after the first one
      ended in a transport error. */
  predicate FollowsAnError(check: (Url, nat) -> CheckResult, urls: seq<Url>, attempts: seq<(Url, nat)>, k: nat)
    requires k < |attempts|
  {
    && attempts[k].0 in urls && attempts[k].1 < 2
    && (attempts[k].1 == 1 ==>
          0 < k && attempts[k - 1] == (attempts[k].0, 0) && check(attempts[k].0, 0).TransportError?)
  }

  /** A variant is tried again only right after its first attempt ended in a transport error, so there
      are at most two attempts at each of the urls. */
  lemma {:induction false} RetriesFollowErrors(check: (Url, nat) -> CheckResult, interrupted: Url -> bool,
                                               urls: seq<Url>)
    ensures var attempts := AttemptsAtAll(check, interrupted, urls);
            && |attempts| <= 2 * |urls|
            && forall k | 0 <= k < |attempts| :: FollowsAnError(check, urls, attempts, k)
  {
    if urls != [] {
      var before, url := urls[..|urls| - 1], urls[|urls| - 1];
      RetriesFollowErrors(check, interrupted, before);
      var earlier := AttemptsAtAll(check, interrupted, before);
      var attempts := earlier + AttemptsAt(check, interrupted, url);
      forall k | 0 <= k < |attempts| ensures FollowsAnError(check, urls, attempts, k) {
        if k < |earlier| {
          assert FollowsAnError(check, before, earlier, k);
        }
      }
    }
  }
}
