/** The candidate search of internal/adapters/domainlookup/domainlookup.go, with the RDAP and WHOIS
    answers as inputs, and the verdict internal/adapters/runner/runner.go draws from it. */
module DomainLookup {
  import opened Wrappers
  import opened Text

  const MAX_DOMAIN_LENGTH := 253
  const MAX_DOMAIN_LABELS := 127
  const MAX_DOMAIN_LABEL_LENGTH := 63

  // ---- Labels ----

  /** strings.Split(s, "."). */
  function Split(s: string): (parts: seq<string>)
    ensures parts != []
  {
    if s == "" then [""]
    else
      var rest := Split(s[1..]);
      if s[0] == '.' then [""] + rest else [[s[0]] + rest[0]] + rest[1..]
  }

  /** strings.Join(parts, "."). */
  function Join(parts: seq<string>): string {
    if parts == [] then ""
    else if |parts| == 1 then parts[0]
    else parts[0] + "." + Join(parts[1..])
  }

  lemma {:induction false} JoinSplit(s: string)
    ensures Join(Split(s)) == s
  {
    if s != "" {
      JoinSplit(s[1..]);
      var rest := Split(s[1..]);
      if s[0] == '.' {
        assert ([""] + rest)[1..] == rest;
      } else {
        var parts := [[s[0]] + rest[0]] + rest[1..];
        assert parts[1..] == rest[1..];
        assert Join(parts) == [s[0]] + Join(rest);
      }
    }
  }

  lemma {:induction false} SplitHasNoDots(s: string)
    ensures forall part | part in Split(s) :: '.' !in part
  {
    if s != "" {
      SplitHasNoDots(s[1..]);
    }
  }

  lemma {:induction false} SplitAtDot(first: string, rest: string)
    requires '.' !in first
    ensures Split(first + "." + rest) == [first] + Split(rest)
  {
    var s := first + "." + rest;
    if first == "" {
      assert s[1..] == rest;
    } else {
      SplitAtDot(first[1..], rest);
      assert s[1..] == first[1..] + "." + rest;
      assert [first[0]] + first[1..] == first;
    }
  }

  lemma {:induction false} SplitNoDot(s: string)
    requires '.' !in s
    ensures Split(s) == [s]
  {
    if s != "" {
      SplitNoDot(s[1..]);
      assert [s[0]] + s[1..] == s;
    }
  }

  lemma {:induction false} SplitJoin(parts: seq<string>)
    requires parts != [] && forall part | part in parts :: '.' !in part
    ensures Split(Join(parts)) == parts
  {
    if |parts| == 1 {
      SplitNoDot(parts[0]);
    } else {
      SplitJoin(parts[1..]);
      SplitAtDot(parts[0], Join(parts[1..]));
    }
  }

  predicate ValidChar(c: char) {
    'a' <= c <= 'z' || '0' <= c <= '9' || c == '-'
  }

  predicate ValidLabel(part: string) {
    && part != "" && |part| <= MAX_DOMAIN_LABEL_LENGTH
    && part[0] != '-' && part[|part| - 1] != '-'
    && forall c | c in part :: ValidChar(c)
  }

  predicate ValidDomainName(domain: string) {
    && domain != "" && |domain| <= MAX_DOMAIN_LENGTH && '/' !in domain
    && |Split(domain)| <= MAX_DOMAIN_LABELS
    && forall part | part in Split(domain) :: ValidLabel(part)
  }

  lemma {:induction false} JoinIsLong(parts: seq<string>)
    requires forall i | 0 <= i < |parts| :: parts[i] != ""
    ensures 2 * |parts| <= |Join(parts)| + 1
  {
    if 1 < |parts| {
      assert forall i | 0 <= i < |parts[1..]| :: parts[1..][i] == parts[i + 1];
      JoinIsLong(parts[1..]);
      assert Join(parts) == parts[0] + "." + Join(parts[1..]);
      assert parts[0] != "";
    }
  }

  /** A label of 63 characters at most: lower-case letters, digits and inner hyphens. */
  predicate LetterDigitHyphen(part: string) {
    && 1 <= |part| <= 63 && part[0] != '-' && part[|part| - 1] != '-'
    && forall c | c in part :: 'a' <= c <= 'z' || '0' <= c <= '9' || c == '-'
  }

  /** Which names are valid: those of 253 characters at most whose labels are. The bound on the number of
      labels follows from that on the length. */
  lemma ValidNameIff(domain: string)
    ensures ValidDomainName(domain)
       <==> |domain| <= 253 && forall part | part in Split(domain) :: LetterDigitHyphen(part)
  {
    forall part ensures ValidLabel(part) <==> LetterDigitHyphen(part) {
    }
    if |domain| <= 253 && forall part | part in Split(domain) :: LetterDigitHyphen(part) {
      LabelsAreFew(domain);
    }
  }

  lemma LabelsAreFew(domain: string)
    requires |domain| <= 253 && forall part | part in Split(domain) :: LetterDigitHyphen(part)
    ensures domain != "" && '/' !in domain && |Split(domain)| <= 127
  {
    var parts := Split(domain);
    JoinSplit(domain);
    assert forall i | 0 <= i < |parts| :: parts[i] in parts;
    JoinIsLong(parts);
    assert forall part | part in parts :: '/' !in part;
    JoinLacks(parts, '/');
  }

  function TrimDots(s: string): string {
    Trim(s, '.')
  }

  function NormalizeTarget(target: string): string {
    TrimDots(TrimSpace(ToLower(target)))
  }

  lemma {:induction false} TrimDotsLower(s: string)
    ensures TrimDots(ToLower(s)) == ToLower(TrimDots(s))
  {
    if s != "" {
      LowerKeepsSpaces(s[0]);
      LowerKeepsSpaces(s[|s| - 1]);
      TrimDotsLower(s[1..]);
      TrimDotsLower(s[..|s| - 1]);
      assert ToLower(s)[1..] == ToLower(s[1..]) && ToLower(s)[..|s| - 1] == ToLower(s[..|s| - 1]);
    }
  }

  /** The name looked up: the target without white space around it and then without dots around it, in
      lower case. */
  lemma NormalizedTargetIs(target: string)
    ensures NormalizeTarget(target) == ToLower(TrimDots(TrimSpace(target)))
    ensures SameUpToCase(TrimDots(TrimSpace(target)), NormalizeTarget(target))
    ensures forall c | c in NormalizeTarget(target) :: !('A' <= c <= 'Z')
  {
    TrimSpaceLower(target);
    TrimDotsLower(TrimSpace(target));
    ToLowerIs(TrimDots(TrimSpace(target)), target);
  }

  // ---- Candidates ----

  /** The name itself, then what is left after dropping labels from the front, down to two. */
  function Candidates(domain: string): seq<string> {
    var parts := Split(domain);
    if |parts| <= 2 then [domain]
    else seq(|parts| - 1, i requires 0 <= i < |parts| - 1 => Join(parts[i..]))
  }

  method LookupCandidates(domain: string) returns (candidates: seq<string>)
    ensures candidates == Candidates(domain)
  {
    var parts := Split(domain);
    if |parts| <= 2 {
      return [domain];
    }
    candidates := [];
    var i := 0;
    while i <= |parts| - 2
      invariant 0 <= i <= |parts| - 1
      invariant |candidates| == i && forall k | 0 <= k < i :: candidates[k] == Join(parts[k..])
    {
      candidates := candidates + [Join(parts[i..])];
      i := i + 1;
    }
  }

  predicate IsSuffix(suffix: string, s: string) {
    |suffix| <= |s| && s[|s| - |suffix|..] == suffix
  }

  lemma {:induction false} LaterJoinIsShorterSuffix(parts: seq<string>, i: nat, j: nat)
    requires i <= j < |parts|
    ensures IsSuffix(Join(parts[j..]), Join(parts[i..]))
    ensures i < j ==> |Join(parts[j..])| < |Join(parts[i..])|
    decreases j - i
  {
    if i < j {
      LaterJoinIsShorterSuffix(parts, i + 1, j);
      assert parts[i..][1..] == parts[i + 1..];
      assert Join(parts[i..]) == parts[i] + "." + Join(parts[i + 1..]);
    }
  }

  lemma {:induction false} JoinLacks(parts: seq<string>, c: char)
    requires c != '.' && forall part | part in parts :: c !in part
    ensures c !in Join(parts)
  {
    if 1 < |parts| {
      JoinLacks(parts[1..], c);
    }
  }

  lemma SuffixOfValidIsValid(domain: string, i: nat)
    requires ValidDomainName(domain) && i < |Split(domain)|
    ensures ValidDomainName(Join(Split(domain)[i..]))
    ensures Split(Join(Split(domain)[i..])) == Split(domain)[i..]
  {
    var parts := Split(domain);
    var suffix := Join(parts[i..]);
    SplitHasNoDots(domain);
    SplitJoin(parts[i..]);
    JoinSplit(domain);
    assert parts[0..] == parts;
    LaterJoinIsShorterSuffix(parts, 0, i);
    assert forall part | part in parts[i..] :: part in parts && '/' !in part;
    JoinLacks(parts[i..], '/');
    assert parts[i] in parts && parts[i] != "";
  }

  /** Where a candidate comes from. */
  lemma CandidateIsJoin(domain: string, i: nat)
    requires i < |Candidates(domain)|
    ensures i < |Split(domain)| && (i == 0 || i + 2 <= |Split(domain)|)
    ensures Candidates(domain)[i] == Join(Split(domain)[i..])
  {
    JoinSplit(domain);
    assert Split(domain)[0..] == Split(domain);
  }

  lemma SuffixOfName(domain: string, i: nat)
    requires i < |Split(domain)|
    ensures IsSuffix(Join(Split(domain)[i..]), domain)
  {
    JoinSplit(domain);
    assert Split(domain)[0..] == Split(domain);
    LaterJoinIsShorterSuffix(Split(domain), 0, i);
  }

  lemma CandidateAt(domain: string, i: nat)
    requires ValidDomainName(domain) && i < |Candidates(domain)|
    ensures i < |Split(domain)| && (i == 0 || i + 2 <= |Split(domain)|)
    ensures Candidates(domain)[i] == Join(Split(domain)[i..])
    ensures ValidDomainName(Candidates(domain)[i]) && IsSuffix(Candidates(domain)[i], domain)
  {
    CandidateIsJoin(domain, i);
    SuffixOfValidIsValid(domain, i);
    SuffixOfName(domain, i);
  }

  /** A suffix the search covers: at least two labels, or the whole name. */
  predicate Searchable(domain: string, suffix: string) {
    exists i :: 0 <= i < |Split(domain)| && (i == 0 || i + 2 <= |Split(domain)|) && suffix == Join(Split(domain)[i..])
  }

  lemma CandidatesAreSearchable(domain: string, suffix: string)
    requires ValidDomainName(domain)
    ensures suffix in Candidates(domain) <==> Searchable(domain, suffix)
  {
    var parts, all := Split(domain), Candidates(domain);
    if suffix in all {
      var i :| 0 <= i < |all| && all[i] == suffix;
      CandidateAt(domain, i);
    }
    if Searchable(domain, suffix) {
      var i :| 0 <= i < |parts| && (i == 0 || i + 2 <= |parts|) && suffix == Join(parts[i..]);
      CandidateAt(domain, i);
      assert all[i] == suffix;
    }
  }

  /** The candidates are exactly the suffixes of at least two labels, or the name itself when it has
      only one; each is a valid name, and each is a strictly shorter suffix than the one before. */
  lemma CandidatesAreSuffixes(domain: string)
    requires ValidDomainName(domain)
    ensures forall c :: c in Candidates(domain) <==> Searchable(domain, c)
    ensures forall c | c in Candidates(domain) :: ValidDomainName(c) && IsSuffix(c, domain)
    ensures forall i, j | 0 <= i < j < |Candidates(domain)| ::
              && |Candidates(domain)[j]| < |Candidates(domain)[i]|
              && IsSuffix(Candidates(domain)[j], Candidates(domain)[i])
  {
    var all := Candidates(domain);
    forall c ensures c in all <==> Searchable(domain, c) {
      CandidatesAreSearchable(domain, c);
    }
    forall c | c in all ensures ValidDomainName(c) && IsSuffix(c, domain) {
      var i :| 0 <= i < |all| && all[i] == c;
      CandidateAt(domain, i);
    }
    forall i, j | 0 <= i < j < |all| ensures |all[j]| < |all[i]| && IsSuffix(all[j], all[i]) {
      LaterCandidateIsShorter(domain, i, j);
    }
  }

  lemma LaterCandidateIsShorter(domain: string, i: nat, j: nat)
    requires ValidDomainName(domain) && i < j < |Candidates(domain)|
    ensures |Candidates(domain)[j]| < |Candidates(domain)[i]|
    ensures IsSuffix(Candidates(domain)[j], Candidates(domain)[i])
  {
    CandidateAt(domain, i);
    CandidateAt(domain, j);
    LaterJoinIsShorterSuffix(Split(domain), i, j);
  }

  // ---- One candidate ----

  /** What a directory says about a name. */
  datatype Record = Record(registered: bool, expiresAt: Option<int>, registrar: Option<string>)

  const NO_RECORD := Record(false, None, None)

  datatype Answer = Ok(record: Record) | Err(temporary: bool)

  datatype Result = Found(domain: string, record: Record) | Failed(temporary: bool)

  /** The record a call returns beside an error is empty. */
  function RecordOf(answer: Answer): Record {
    match answer case Ok(record) => record case Err(_) => NO_RECORD
  }

  function WithRegistrar(whois: Record, rdap: Answer): Record {
    if whois.registrar.None? then whois.(registrar := RecordOf(rdap).registrar) else whois
  }

  predicate IsTemporary(answer: Answer) {
    answer.Err? && answer.temporary
  }

  function LookupCandidate(domain: string, rdap: Answer, whois: Answer): Result {
    if rdap.Ok? && (!rdap.record.registered || rdap.record.expiresAt.Some?) then Found(domain, rdap.record)
    else if whois.Ok? then
      if whois.record.registered then Found(domain, WithRegistrar(whois.record, rdap))
      else if rdap.Ok? && rdap.record.registered then Found(domain, rdap.record)
      else if IsTemporary(rdap) then Failed(true)
      else Found(domain, WithRegistrar(whois.record, rdap))
    else if rdap.Ok? && rdap.record.registered then Found(domain, rdap.record)
    else if IsTemporary(rdap) || IsTemporary(whois) then Failed(true)
    else Found(domain, NO_RECORD)
  }

  /** The decision table read backwards. A name is reported registered exactly when RDAP says so, or
      RDAP fails and WHOIS says so; so a positive RDAP answer is never downgraded. Only temporary
      failures get out, and exactly when no directory gave a positive answer, RDAP did not deny the
      name, and one of the two failed temporarily with nothing to outvote it. */
  lemma CandidateDecision(domain: string, rdap: Answer, whois: Answer)
    ensures var result := LookupCandidate(domain, rdap, whois);
            && (result.Failed? ==> result.temporary)
            && (result.Found? ==> result.domain == domain)
            && (result.Found? && result.record.registered
                <==> RecordOf(rdap).registered || (rdap.Err? && RecordOf(whois).registered))
            && (result.Failed?
                <==> rdap.Err? && !RecordOf(whois).registered
                     && (IsTemporary(rdap) || IsTemporary(whois)))
            && (rdap.Ok? && rdap.record.registered && (rdap.record.expiresAt.Some? || !RecordOf(whois).registered)
                ==> result.record == rdap.record)
  {
  }

  /** The record that comes back, from the two answers alone. RDAP decides when it denies the name or dates
      it. Otherwise a positive WHOIS answer gives the date, and the registrar unless only RDAP names one.
      Without it a positive RDAP answer stands; and without either the name is unregistered, unless one of
      the two may still answer. */
  lemma CandidateRecord(domain: string, rdap: Answer, whois: Answer)
    ensures var result := LookupCandidate(domain, rdap, whois);
            match (rdap, whois)
            case (Ok(r), Ok(v)) =>
              if !r.registered || r.expiresAt.Some? || !v.registered then result == Found(domain, r)
              else result == Found(domain, Record(true, v.expiresAt,
                                                  if v.registrar.Some? then v.registrar else r.registrar))
            case (Ok(r), Err(_)) => result == Found(domain, r)
            case (Err(temporary), Ok(v)) =>
              if v.registered || !temporary then result == Found(domain, v) else result == Failed(true)
            case (Err(temporary), Err(also)) =>
              if temporary || also then result == Failed(true) else result == Found(domain, Record(false, None, None))
  {
  }

  // ---- The search ----

  /** What RDAP and WHOIS answer for a name. */
  type Directory = string -> (Answer, Answer)

  function At(directory: Directory, candidate: string): Result {
    LookupCandidate(candidate, directory(candidate).0, directory(candidate).1)
  }

  /** RDAP knows the name or, when RDAP gives no answer, WHOIS does. */
  predicate RegisteredAt(directory: Directory, name: string) {
    match directory(name)
    case (Ok(rdap), _) => rdap.registered
    case (Err(_), Ok(whois)) => whois.registered
    case (Err(_), Err(_)) => false
  }

  /** RDAP gives no answer and WHOIS no positive one, and one of the two failed for the moment only. */
  predicate FailsAt(directory: Directory, name: string) {
    match directory(name)
    case (Ok(_), _) => false
    case (Err(temporary), Ok(whois)) => temporary && !whois.registered
    case (Err(temporary), Err(also)) => temporary || also
  }

  /** The date a name is registered until: RDAP's, or WHOIS's if RDAP gives none. */
  function ExpiryAt(directory: Directory, name: string): Option<int> {
    match directory(name)
    case (Ok(rdap), Ok(whois)) =>
      if rdap.expiresAt.None? && rdap.registered && whois.registered then whois.expiresAt else rdap.expiresAt
    case (Ok(rdap), Err(_)) => rdap.expiresAt
    case (Err(_), Ok(whois)) => whois.expiresAt
    case (Err(_), Err(_)) => None
  }

  /** What is asked of a name is what the search asks of its candidate. */
  lemma AtIs(directory: Directory, name: string)
    ensures RegisteredAt(directory, name) <==> At(directory, name).Found? && At(directory, name).record.registered
    ensures FailsAt(directory, name) <==> At(directory, name).Failed?
    ensures At(directory, name) == Failed(true) || At(directory, name).Found?
    ensures At(directory, name).Found? ==> At(directory, name).domain == name
    ensures RegisteredAt(directory, name) ==> At(directory, name).record.expiresAt == ExpiryAt(directory, name)
  {
    CandidateRecord(name, directory(name).0, directory(name).1);
  }

  /** Nothing registered among the first n candidates; `failed` says whether one of them failed. */
  predicate NothingYet(directory: Directory, candidates: seq<string>, n: nat, failed: bool) {
    && n <= |candidates|
    && (forall k | 0 <= k < n :: !RegisteredAt(directory, candidates[k]))
    && (failed <==> exists k :: 0 <= k < n && FailsAt(directory, candidates[k]))
  }

  /** The first registered candidate, whatever failed before it; else a temporary failure if any
      candidate failed; else the name is unregistered. */
  ghost predicate SearchResult(domain: string, directory: Directory, result: Result) {
    var candidates := Candidates(domain);
    if exists k :: 0 <= k < |candidates| && RegisteredAt(directory, candidates[k]) then
      exists k: nat, failed: bool :: && NothingYet(directory, candidates, k, failed) && k < |candidates|
                          && RegisteredAt(directory, candidates[k])
                          && result == At(directory, candidates[k])
    else if exists k :: 0 <= k < |candidates| && FailsAt(directory, candidates[k]) then result == Failed(true)
    else result == Found(domain, NO_RECORD)
  }

  /** What looking up a target yields: a target that is no domain name is not searched for. */
  ghost predicate LookedUp(target: string, directory: Directory, result: Result) {
    var domain := NormalizeTarget(target);
    if ValidDomainName(domain) then SearchResult(domain, directory, result) else result == Found(domain, NO_RECORD)
  }

  lemma OneMoreWithout(directory: Directory, candidates: seq<string>, n: nat, failed: bool)
    requires n < |candidates| && NothingYet(directory, candidates, n, failed)
    requires !RegisteredAt(directory, candidates[n])
    ensures NothingYet(directory, candidates, n + 1, failed || FailsAt(directory, candidates[n]))
  {
  }

  lemma FoundFirst(domain: string, directory: Directory, n: nat, failed: bool)
    requires n < |Candidates(domain)| && NothingYet(directory, Candidates(domain), n, failed)
    requires RegisteredAt(directory, Candidates(domain)[n])
    ensures SearchResult(domain, directory, At(directory, Candidates(domain)[n]))
  {
  }

  lemma FoundNone(domain: string, directory: Directory, failed: bool)
    requires NothingYet(directory, Candidates(domain), |Candidates(domain)|, failed)
    ensures SearchResult(domain, directory, if failed then Failed(true) else Found(domain, NO_RECORD))
  {
  }

  method Lookup(target: string, directory: Directory) returns (result: Result)
    ensures LookedUp(target, directory, result)
  {
    var domain := NormalizeTarget(target);
    if !ValidDomainName(domain) {
      return Found(domain, NO_RECORD);
    }
    var temporaryErr := false;
    var candidates := LookupCandidates(domain);
    for i := 0 to |candidates|
      invariant NothingYet(directory, candidates, i, temporaryErr)
    {
      var found := At(directory, candidates[i]);
      AtIs(directory, candidates[i]);
      if RegisteredAt(directory, candidates[i]) {
        FoundFirst(domain, directory, i, temporaryErr);
      } else {
        OneMoreWithout(directory, candidates, i, temporaryErr);
      }
      if found.Failed? {
        if found.temporary && !temporaryErr {
          temporaryErr := true;
        }
        continue;
      }
      if found.record.registered {
        return found;
      }
    }
    FoundNone(domain, directory, temporaryErr);
    if temporaryErr {
      return Failed(true);
    }
    return Found(domain, NO_RECORD);
  }

  /** The main result: what comes back is the longest registered suffix; a failure is temporary and
      means that none is registered and some lookup failed. */
  lemma LongestRegisteredSuffix(domain: string, directory: Directory, result: Result)
    requires ValidDomainName(domain) && SearchResult(domain, directory, result)
    ensures result.Failed? ==> result.temporary
    ensures result.Found? && result.record.registered ==>
              && Searchable(domain, result.domain) && RegisteredAt(directory, result.domain)
              && forall s | Searchable(domain, s) && RegisteredAt(directory, s) :: |s| <= |result.domain|
    ensures result.Found? && result.record.registered
       <==> exists s :: Searchable(domain, s) && RegisteredAt(directory, s)
    ensures result.Failed?
       <==> && (forall s | Searchable(domain, s) :: !RegisteredAt(directory, s))
            && (exists s :: Searchable(domain, s) && FailsAt(directory, s))
    ensures result.Found? && result.record.registered ==> result.record.expiresAt == ExpiryAt(directory, result.domain)
  {
    var candidates := Candidates(domain);
    CandidatesAreSuffixes(domain);
    forall s | RegisteredAt(directory, s) || FailsAt(directory, s)
      ensures Searchable(domain, s) <==> exists k :: 0 <= k < |candidates| && candidates[k] == s
    {
      assert Searchable(domain, s) <==> s in candidates;
    }
    if exists k :: 0 <= k < |candidates| && RegisteredAt(directory, candidates[k]) {
      FirstRegisteredIsLongest(domain, directory, result);
      AtIs(directory, result.domain);
    }
  }

  /** The longest suffix the search covers that is registered. */
  ghost predicate Longest(domain: string, directory: Directory, suffix: string) {
    && Searchable(domain, suffix) && RegisteredAt(directory, suffix)
    && forall s | Searchable(domain, s) && RegisteredAt(directory, s) :: |s| <= |suffix|
  }

  /** There is only one. */
  lemma LongestIsUnique(domain: string, directory: Directory, a: string, b: string)
    requires Longest(domain, directory, a) && Longest(domain, directory, b)
    ensures a == b
  {
    SearchableIsSuffix(domain, a);
    SearchableIsSuffix(domain, b);
  }

  lemma SearchableIsSuffix(domain: string, suffix: string)
    requires Searchable(domain, suffix)
    ensures IsSuffix(suffix, domain)
  {
    var i :| 0 <= i < |Split(domain)| && (i == 0 || i + 2 <= |Split(domain)|) && suffix == Join(Split(domain)[i..]);
    SuffixOfName(domain, i);
  }

  lemma FirstIsLongest(domain: string, directory: Directory, k: nat, failed: bool)
    requires ValidDomainName(domain) && k < |Candidates(domain)|
    requires NothingYet(directory, Candidates(domain), k, failed) && RegisteredAt(directory, Candidates(domain)[k])
    ensures Longest(domain, directory, Candidates(domain)[k])
  {
    var candidates := Candidates(domain);
    CandidatesAreSearchable(domain, candidates[k]);
    forall s | Searchable(domain, s) && RegisteredAt(directory, s) ensures |s| <= |candidates[k]| {
      CandidatesAreSearchable(domain, s);
      var j :| 0 <= j < |candidates| && candidates[j] == s;
      if k < j {
        LaterCandidateIsShorter(domain, k, j);
      }
    }
  }

  lemma FirstRegisteredIsLongest(domain: string, directory: Directory, result: Result)
    requires ValidDomainName(domain) && SearchResult(domain, directory, result)
    requires exists k :: 0 <= k < |Candidates(domain)| && RegisteredAt(directory, Candidates(domain)[k])
    ensures result.Found? && result.record.registered && result == At(directory, result.domain)
    ensures Longest(domain, directory, result.domain)
  {
    var candidates := Candidates(domain);
    var k: nat, failed: bool :| && NothingYet(directory, candidates, k, failed) && k < |candidates|
                                && RegisteredAt(directory, candidates[k]) && result == At(directory, candidates[k]);
    AtIs(directory, candidates[k]);
    FirstIsLongest(domain, directory, k, failed);
  }

  // ---- The verdict ----

  datatype Status = Up | Down | Unknown

  datatype Verdict = Verdict(status: Status, payload: Option<bool>)

  const THIRTY_DAYS: int := 30 * 24 * 3600 * 1_000_000_000

  function CrawlDomainExpiration(result: Result, checkedAt: int): Verdict {
    if result.Failed? then
      if result.temporary then Verdict(Unknown, None) else Verdict(Down, Some(false))
    else
      var valid := result.record.registered && result.record.expiresAt.Some?
                && checkedAt + THIRTY_DAYS < result.record.expiresAt.value;
      Verdict(if valid then Up else Down, Some(valid))
  }

  /** The registration of a name runs for more than thirty days from this instant. */
  predicate RunsOn(directory: Directory, name: string, checkedAt: int) {
    && RegisteredAt(directory, name) && ExpiryAt(directory, name).Some?
    && checkedAt + 2_592_000_000_000_000 < ExpiryAt(directory, name).value
  }

  lemma UpIffLongestRunsOn(domain: string, directory: Directory, result: Result, checkedAt: int)
    requires ValidDomainName(domain) && SearchResult(domain, directory, result)
    ensures CrawlDomainExpiration(result, checkedAt).status.Up?
       <==> exists s :: Longest(domain, directory, s) && RunsOn(directory, s, checkedAt)
  {
    LongestRegisteredSuffix(domain, directory, result);
    if exists k :: 0 <= k < |Candidates(domain)| && RegisteredAt(directory, Candidates(domain)[k]) {
      FirstRegisteredIsLongest(domain, directory, result);
      if s :| Longest(domain, directory, s) && RunsOn(directory, s, checkedAt) {
        LongestIsUnique(domain, directory, s, result.domain);
      }
      assert CrawlDomainExpiration(result, checkedAt).status.Up? ==> RunsOn(directory, result.domain, checkedAt);
    } else {
      forall s ensures !Longest(domain, directory, s) {
        CandidatesAreSearchable(domain, s);
      }
    }
  }

  /** Composed with this lookup, and said of the answers of the two directories, the verdict is Unknown exactly
      when the target is a domain name of which no suffix is registered and some lookup failed, Up exactly when
      the longest registered suffix of it runs for more than thirty days, and Down otherwise; the branch for
      other errors is never taken. */
  lemma VerdictOfLookup(target: string, directory: Directory, result: Result, checkedAt: int)
    requires LookedUp(target, directory, result)
    ensures !(result.Failed? && !result.temporary)
    ensures var domain, verdict := NormalizeTarget(target), CrawlDomainExpiration(result, checkedAt);
            && (verdict.status.Unknown? <==> verdict.payload.None?)
            && (verdict.status.Unknown?
                <==> && ValidDomainName(domain)
                     && (forall s | Searchable(domain, s) :: !RegisteredAt(directory, s))
                     && (exists s :: Searchable(domain, s) && FailsAt(directory, s)))
            && (verdict.status.Up?
                <==> && ValidDomainName(domain)
                     && (exists s :: Longest(domain, directory, s) && RunsOn(directory, s, checkedAt)))
            && (verdict.payload.Some? ==> verdict.payload == Some(verdict.status.Up?))
  {
    if ValidDomainName(NormalizeTarget(target)) {
      LongestRegisteredSuffix(NormalizeTarget(target), directory, result);
      UpIffLongestRunsOn(NormalizeTarget(target), directory, result, checkedAt);
    }
  }
}
