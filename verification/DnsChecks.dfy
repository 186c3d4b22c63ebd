/** The DNS check of internal/adapters/runner/dns_record_checker.go: two lists of values in canonical form, and
    the verdict. The answer of the resolver is an input. */
module DnsChecks {
  import opened Wrappers
  import opened Text
  import opened DnsRecords

  // ---- The canonical list ----

  /** Byte-wise order of strings, which on UTF-8 is the order of code points. */
  predicate Less(a: string, b: string) {
    b != "" && (a == "" || a[0] < b[0] || (a[0] == b[0] && Less(a[1..], b[1..])))
  }

  /** The strings part after n characters, and there a ends or has the smaller one. */
  predicate PartsAt(a: string, b: string, n: nat) {
    n <= |a| && n < |b| && a[..n] == b[..n] && (n < |a| ==> a[n] < b[n])
  }

  lemma {:induction false} LessIff(a: string, b: string)
    ensures Less(a, b) <==> exists n: nat :: PartsAt(a, b, n)
  {
    if a == "" || b == "" {
      assert b != "" ==> PartsAt(a, b, 0);
    } else {
      LessIff(a[1..], b[1..]);
      if Less(a, b) && a[0] < b[0] {
        assert PartsAt(a, b, 0);
      } else if Less(a, b) {
        var n: nat :| PartsAt(a[1..], b[1..], n);
        PartsLater(a, b, n);
      }
      if n: nat :| PartsAt(a, b, n) && n > 0 {
        PartsLater(a, b, n - 1);
      }
    }
  }

  lemma PartsLater(a: string, b: string, n: nat)
    requires a != "" && b != ""
    ensures PartsAt(a, b, n + 1) <==> a[0] == b[0] && PartsAt(a[1..], b[1..], n)
  {
    if n < |a| && n + 1 < |b| {
      assert a[..n + 1] == [a[0]] + a[1..][..n];
      assert b[..n + 1] == [b[0]] + b[1..][..n];
      if a[..n + 1] == b[..n + 1] {
        assert a[..n + 1][0] == b[..n + 1][0] && a[..n + 1][1..] == b[..n + 1][1..];
      }
    }
  }

  lemma {:induction false} LessIsTotal(a: string, b: string)
    ensures Less(a, b) || Less(b, a) || a == b
    ensures !(Less(a, b) && Less(b, a)) && !Less(a, a)
  {
    if a != "" && b != "" {
      LessIsTotal(a[1..], b[1..]);
      LessIsTotal(a[1..], a[1..]);
      assert a == [a[0]] + a[1..] && b == [b[0]] + b[1..];
    } else if a != "" {
      LessIsTotal(a[1..], a[1..]);
    }
  }

  lemma {:induction false} LessIsTransitive(a: string, b: string, c: string)
    requires Less(a, b) && Less(b, c)
    ensures Less(a, c)
  {
    if a != "" && a[0] == b[0] && b[0] == c[0] {
      LessIsTransitive(a[1..], b[1..], c[1..]);
    }
  }

  predicate StrictlyIncreasing(s: seq<string>) {
    forall i, j | 0 <= i < j < |s| :: Less(s[i], s[j])
  }

  function Elements(s: seq<string>): set<string> {
    set x | x in s
  }

  /** Where slices.Sort would put one more value. */
  function Insert(x: string, sorted: seq<string>): seq<string> {
    if sorted == [] then [x]
    else if Less(x, sorted[0]) then [x] + sorted
    else [sorted[0]] + Insert(x, sorted[1..])
  }

  /** slices.Sort. */
  function Sort(s: seq<string>): seq<string> {
    if s == [] then [] else Insert(s[0], Sort(s[1..]))
  }

  lemma {:induction false} InsertKeepsOrder(x: string, sorted: seq<string>)
    requires StrictlyIncreasing(sorted) && x !in sorted
    ensures StrictlyIncreasing(Insert(x, sorted))
    ensures forall y :: y in Insert(x, sorted) <==> y == x || y in sorted
  {
    if sorted != [] {
      var head, rest := sorted[0], sorted[1..];
      LessIsTotal(x, head);
      assert sorted == [head] + rest;
      if Less(x, head) {
        forall y | y in rest ensures Less(x, y) {
          LessIsTransitive(x, head, y);
        }
      } else {
        InsertKeepsOrder(x, rest);
        forall y | y in Insert(x, rest) ensures Less(head, y) { }
      }
    }
  }

  lemma {:induction false} SortOrders(s: seq<string>)
    requires forall i, j | 0 <= i < j < |s| :: s[i] != s[j]
    ensures StrictlyIncreasing(Sort(s))
    ensures forall y :: y in Sort(s) <==> y in s
  {
    if s != [] {
      SortOrders(s[1..]);
      InsertKeepsOrder(s[0], Sort(s[1..]));
    }
  }

  lemma HeadIsElement(s: seq<string>)
    ensures s != [] ==> s[0] in Elements(s)
  {
  }

  /** A set of strings has one strictly increasing enumeration. */
  lemma {:induction false} IncreasingIsUnique(a: seq<string>, b: seq<string>)
    requires StrictlyIncreasing(a) && StrictlyIncreasing(b) && Elements(a) == Elements(b)
    ensures a == b
  {
    HeadIsElement(b);
    if a != [] {
      assert a[0] in Elements(b);
      var i :| 0 <= i < |b| && b[i] == a[0];
      assert b[0] in Elements(a);
      var j :| 0 <= j < |a| && a[j] == b[0];
      LessIsTotal(a[0], b[0]);
      assert i == 0;
      TailElements(a);
      TailElements(b);
      IncreasingIsUnique(a[1..], b[1..]);
    }
  }

  lemma TailElements(s: seq<string>)
    requires StrictlyIncreasing(s) && s != []
    ensures Elements(s[1..]) == Elements(s) - {s[0]}
  {
    LessIsTotal(s[0], s[0]);
    assert s == [s[0]] + s[1..];
  }

  predicate AllValid(parsers: Parsers, values: seq<string>, recordType: string) {
    forall v | v in values :: NormalizeDNSRecordValue(parsers, v, recordType).Some?
  }

  /** The set the canonical list enumerates. */
  function NormalizedSet(parsers: Parsers, values: seq<string>, recordType: string): set<string>
    requires AllValid(parsers, values, recordType)
  {
    set v | v in values :: NormalizeDNSRecordValue(parsers, v, recordType).value
  }

  /** How a list is reported: in order, each value once. */
  ghost predicate Reports(parsers: Parsers, values: seq<string>, recordType: string, reported: seq<string>)
    requires AllValid(parsers, values, recordType)
  {
    StrictlyIncreasing(reported) && Elements(reported) == NormalizedSet(parsers, values, recordType)
  }

  /** What the loop has built of the values before it: the distinct ones in normal form, and their set. */
  predicate Gathered(parsers: Parsers, values: seq<string>, recordType: string, normalized: seq<string>,
                     seen: set<string>)
  {
    && AllValid(parsers, values, recordType)
    && seen == Elements(normalized) == NormalizedSet(parsers, values, recordType)
    && forall i, j | 0 <= i < j < |normalized| :: normalized[i] != normalized[j]
  }

  lemma GatherOne(parsers: Parsers, values: seq<string>, value: string, recordType: string,
                  normalized: seq<string>, seen: set<string>)
    requires Gathered(parsers, values, recordType, normalized, seen)
    requires NormalizeDNSRecordValue(parsers, value, recordType).Some?
    ensures var item := NormalizeDNSRecordValue(parsers, value, recordType).value;
            if item in seen then Gathered(parsers, values + [value], recordType, normalized, seen)
            else Gathered(parsers, values + [value], recordType, normalized + [item], seen + {item})
  {
    var item := NormalizeDNSRecordValue(parsers, value, recordType).value;
    assert value in values + [value] && forall v | v in values :: v in values + [value];
    assert NormalizedSet(parsers, values + [value], recordType)
        == NormalizedSet(parsers, values, recordType) + {item};
    assert Elements(normalized + [item]) == Elements(normalized) + {item};
    assert item in seen <==> item in normalized;
  }

  lemma OneMore(values: seq<string>, n: nat)
    requires n < |values|
    ensures values[..n + 1] == values[..n] + [values[n]]
  {
  }

  lemma GatheredAll(parsers: Parsers, values: seq<string>, recordType: string, normalized: seq<string>,
                    seen: set<string>)
    requires Gathered(parsers, values, recordType, normalized, seen)
    ensures Reports(parsers, values, recordType, Sort(normalized))
  {
    SortOrders(normalized);
  }

  /** The result is the one strictly increasing list of the normalised values; there is none exactly
      when some value is invalid. */
  method NormalizeDNSRecordValues(parsers: Parsers, values: seq<string>, recordType: string)
    returns (result: Option<seq<string>>)
    ensures result.Some? <==> AllValid(parsers, values, recordType)
    ensures result.Some? ==> Reports(parsers, values, recordType, result.value)
  {
    var normalized: seq<string> := [];
    var seen: set<string> := {};
    for n := 0 to |values|
      invariant Gathered(parsers, values[..n], recordType, normalized, seen)
    {
      var item := NormalizeDNSRecordValue(parsers, values[n], recordType);
      if item.None? {
        return None;
      }
      GatherOne(parsers, values[..n], values[n], recordType, normalized, seen);
      OneMore(values, n);
      if item.value in seen {
        continue;
      }
      seen := seen + {item.value};
      normalized := normalized + [item.value];
    }
    assert values[..|values|] == values;
    GatheredAll(parsers, values, recordType, normalized, seen);
    return Some(Sort(normalized));
  }

  // ---- The verdict ----

  datatype Status = Up | Down

  datatype Observation = Observation(status: Status, transportError: Option<string>,
                                     expected: seq<string>, observed: seq<string>, matched: Option<bool>)

  datatype Check = Check(target: string, recordType: string, expectedValues: seq<string>)

  predicate Configured(check: Check) {
    TrimSpace(check.target) != "" && TrimSpace(check.recordType) != "" && check.expectedValues != []
  }

  ghost predicate AllAcceptable(parsers: Parsers, values: seq<string>, recordType: string) {
    forall v | v in values :: Acceptable(parsers, v, recordType)
  }

  /** Every value of either list says the same as some value of the other. */
  ghost predicate Agree(parsers: Parsers, expected: seq<string>, observed: seq<string>, recordType: string) {
    && (forall a | a in expected :: exists b :: b in observed && Alike(parsers, a, b, recordType))
    && (forall b | b in observed :: exists a :: a in expected && Alike(parsers, a, b, recordType))
  }

  lemma AllValidIff(parsers: Parsers, values: seq<string>, recordType: string)
    ensures AllValid(parsers, values, recordType) <==> AllAcceptable(parsers, values, recordType)
  {
    forall v | v in values
      ensures NormalizeDNSRecordValue(parsers, v, recordType).Some? <==> Acceptable(parsers, v, recordType)
    {
      AcceptedIff(parsers, v, recordType);
    }
  }

  lemma SameSetIff(parsers: Parsers, expected: seq<string>, observed: seq<string>, recordType: string)
    requires AllValid(parsers, expected, recordType) && AllValid(parsers, observed, recordType)
    ensures NormalizedSet(parsers, observed, recordType) == NormalizedSet(parsers, expected, recordType)
       <==> Agree(parsers, expected, observed, recordType)
  {
    var e, o := NormalizedSet(parsers, expected, recordType), NormalizedSet(parsers, observed, recordType);
    forall a, b | a in expected && b in observed
      ensures NormalizeDNSRecordValue(parsers, a, recordType) == NormalizeDNSRecordValue(parsers, b, recordType)
         <==> Alike(parsers, a, b, recordType)
    {
      AlikeIff(parsers, a, b, recordType);
    }
    if o == e {
      forall a | a in expected ensures exists b :: b in observed && Alike(parsers, a, b, recordType) {
        assert NormalizeDNSRecordValue(parsers, a, recordType).value in o;
      }
      forall b | b in observed ensures exists a :: a in expected && Alike(parsers, a, b, recordType) {
        assert NormalizeDNSRecordValue(parsers, b, recordType).value in e;
      }
    }
  }

  /** `resolved` is the resolver's answer. The check is up exactly when it is configured, every value is
      acceptable and the two lists agree, whatever their order and repetitions. */
  method Observe(parsers: Parsers, check: Check, resolved: Option<seq<string>>) returns (o: Observation)
    ensures o.status.Up?
       <==> && Configured(check) && AllAcceptable(parsers, check.expectedValues, TrimSpace(check.recordType))
            && resolved.Some? && AllAcceptable(parsers, resolved.value, TrimSpace(check.recordType))
            && Agree(parsers, check.expectedValues, resolved.value, TrimSpace(check.recordType))
    ensures o.matched == if o.transportError.Some? then None else Some(o.status.Up?)
    ensures o.transportError
         == if !Configured(check) then Some("invalid_configuration")
            else if !AllAcceptable(parsers, check.expectedValues, TrimSpace(check.recordType)) then
              Some("invalid_expected_values")
            else if resolved.None? then Some("dns_lookup_failed")
            else if !AllAcceptable(parsers, resolved.value, TrimSpace(check.recordType)) then
              Some("invalid_observed_values")
            else None
    ensures if Configured(check) && AllValid(parsers, check.expectedValues, TrimSpace(check.recordType))
            then Reports(parsers, check.expectedValues, TrimSpace(check.recordType), o.expected)
            else o.expected == check.expectedValues
    ensures if o.transportError.None? then
              && resolved.Some? && AllValid(parsers, resolved.value, TrimSpace(check.recordType))
              && Reports(parsers, resolved.value, TrimSpace(check.recordType), o.observed)
            else o.observed == []
  {
    o := Observation(Down, None, check.expectedValues, [], None);
    var target, recordType := TrimSpace(check.target), TrimSpace(check.recordType);
    AllValidIff(parsers, check.expectedValues, recordType);
    if target == "" || recordType == "" || |check.expectedValues| == 0 {
      return o.(transportError := Some("invalid_configuration"));
    }
    var expected := NormalizeDNSRecordValues(parsers, check.expectedValues, recordType);
    if expected.None? {
      return o.(transportError := Some("invalid_expected_values"));
    }
    o := o.(expected := expected.value);
    if resolved.None? {
      return o.(transportError := Some("dns_lookup_failed"));
    }
    AllValidIff(parsers, resolved.value, recordType);
    var actual := NormalizeDNSRecordValues(parsers, resolved.value, recordType);
    if actual.None? {
      return o.(transportError := Some("invalid_observed_values"));
    }
    var matched := actual.value == expected.value;
    SameSetIff(parsers, check.expectedValues, resolved.value, recordType);
    if Elements(actual.value) == Elements(expected.value) {
      IncreasingIsUnique(actual.value, expected.value);
    }
    o := o.(observed := actual.value, matched := Some(matched), status := if matched then Up else Down);
  }
}
