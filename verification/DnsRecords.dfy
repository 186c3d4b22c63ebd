/** The canonical form of DNS values, and what it means: internal/adapters/runner/dns_record_checker.go. The
    address parsers and the Go unquoter are inputs. */
module DnsRecords {
  import opened Wrappers
  import opened Text

  /** What the parsers of the standard library return for a trimmed value. */
  datatype Parsers = Parsers(ipv4: string -> Option<string>, ipv6: string -> Option<string>,
                             unquote: string -> Option<string>)

  // ---- Fields ----

  function WordLength(s: string): (n: nat)
    ensures n <= |s|
    ensures s != "" && !IsSpace(s[0]) ==> 0 < n
  {
    if s == "" || IsSpace(s[0]) then 0 else 1 + WordLength(s[1..])
  }

  /** strings.Fields: the words between runs of white space. */
  function Fields(s: string): seq<string>
    decreases |s|
  {
    if s == "" then []
    else if IsSpace(s[0]) then Fields(s[1..])
    else [s[..WordLength(s)]] + Fields(s[WordLength(s)..])
  }

  predicate Word(s: string) {
    s != "" && Spaceless(s)
  }

  lemma {:induction false} WordLengthIsWord(s: string)
    ensures Spaceless(s[..WordLength(s)])
  {
    if s != "" && !IsSpace(s[0]) {
      WordLengthIsWord(s[1..]);
      assert s[..WordLength(s)] == [s[0]] + s[1..][..WordLength(s[1..])];
    }
  }

  lemma {:induction false} FieldsAreWords(s: string)
    ensures forall f | f in Fields(s) :: Word(f)
    decreases |s|
  {
    if s != "" {
      WordLengthIsWord(s);
      FieldsAreWords(if IsSpace(s[0]) then s[1..] else s[WordLength(s)..]);
    }
  }

  lemma {:induction false} WordThenSpace(word: string, rest: string)
    requires Spaceless(word)
    ensures WordLength(word + " " + rest) == |word|
  {
    if word != "" {
      assert word[0] in word && forall c | c in word[1..] :: c in word;
      WordThenSpace(word[1..], rest);
      assert (word + " " + rest)[1..] == word[1..] + " " + rest;
    }
  }

  lemma {:induction false} WholeWord(word: string)
    requires Spaceless(word)
    ensures WordLength(word) == |word|
  {
    if word != "" {
      assert word[0] in word && forall c | c in word[1..] :: c in word;
      WholeWord(word[1..]);
    }
  }

  lemma FieldsOfWord(word: string)
    requires Word(word)
    ensures Fields(word) == [word]
  {
    WholeWord(word);
    assert word[0] in word;
    assert word[..|word|] == word && Fields(word[|word|..]) == [];
  }

  lemma FieldsAfterWord(word: string, rest: string)
    requires Word(word)
    ensures Fields(word + " " + rest) == [word] + Fields(rest)
  {
    var s := word + " " + rest;
    WordThenSpace(word, rest);
    assert word[0] in word && s[0] == word[0];
    assert s[..|word|] == word && s[|word|..] == " " + rest;
    assert (" " + rest)[1..] == rest;
    assert Fields(" " + rest) == Fields(rest);
  }

  /** Words printed with one space between them. */
  function Spaced(words: seq<string>): string {
    if words == [] then "" else if |words| == 1 then words[0] else words[0] + " " + Spaced(words[1..])
  }

  lemma {:induction false} FieldsOfSpaced(words: seq<string>)
    requires forall w | w in words :: Word(w)
    ensures Fields(Spaced(words)) == words
  {
    if |words| == 1 {
      FieldsOfWord(words[0]);
    } else if words != [] {
      FieldsOfSpaced(words[1..]);
      FieldsAfterWord(words[0], Spaced(words[1..]));
    }
  }

  // ---- Decimal numbers ----

  predicate IsDigit(c: char) {
    '0' <= c <= '9'
  }

  function DigitOf(n: nat): char
    requires n < 10
  {
    '0' + n as char
  }

  /** %d of a natural number. */
  function FormatUint(n: nat): (s: string)
    ensures s != "" && forall c | c in s :: IsDigit(c)
  {
    if n < 10 then [DigitOf(n)] else FormatUint(n / 10) + [DigitOf(n % 10)]
  }

  function DecimalValue(s: string): nat
    requires forall c | c in s :: IsDigit(c)
  {
    if s == "" then 0
    else
      assert IsDigit(s[|s| - 1]) && forall c | c in s[..|s| - 1] :: c in s;
      10 * DecimalValue(s[..|s| - 1]) + (s[|s| - 1] - '0') as nat
  }

  /** strconv.ParseUint in base 10: digits only, and no more than fits below `limit`. */
  function ParseUint(s: string, limit: nat): Option<nat> {
    if s != "" && (forall c | c in s :: IsDigit(c)) && DecimalValue(s) < limit then Some(DecimalValue(s)) else None
  }

  lemma {:induction false} ValueOfFormat(n: nat)
    ensures DecimalValue(FormatUint(n)) == n
  {
    if 10 <= n {
      ValueOfFormat(n / 10);
      assert FormatUint(n)[..|FormatUint(n)| - 1] == FormatUint(n / 10);
    }
  }

  lemma ParseFormat(n: nat, limit: nat)
    requires n < limit
    ensures ParseUint(FormatUint(n), limit) == Some(n)
    ensures Word(FormatUint(n))
  {
    ValueOfFormat(n);
    assert forall c | IsDigit(c) :: !IsSpace(c);
  }

  // ---- Values ----

  function NormalizeDNSHostname(value: string): string {
    TrimOneDot(ToLower(TrimSpace(value)))
  }

  function TrimQuotes(s: string): string {
    Trim(s, '"')
  }

  function NormalizeDNSTXT(parsers: Parsers, value: string): string {
    var trimmed := TrimSpace(value);
    if parsers.unquote(trimmed).Some? then parsers.unquote(trimmed).value else TrimQuotes(trimmed)
  }

  const UINT8 := 0x100
  const UINT16 := 0x1_0000
  const UINT32 := 0x1_0000_0000

  function NormalizeMX(value: string): Option<string> {
    var fields := Fields(value);
    if |fields| != 2 then None
    else
      var priority, host := ParseUint(fields[0], UINT16), NormalizeDNSHostname(fields[1]);
      if priority.None? || host == "" then None
      else Some(Spaced([FormatUint(priority.value), host]))
  }

  function FormatAll(numbers: seq<nat>): seq<string> {
    seq(|numbers|, i requires 0 <= i < |numbers| => FormatUint(numbers[i]))
  }

  /** The numbers in a list of fields, if every field is one. */
  function ParseAll(fields: seq<string>): Option<seq<nat>> {
    if forall f | f in fields :: ParseUint(f, UINT32).Some?
    then
      Some(seq(|fields|, i requires 0 <= i < |fields| && ParseUint(fields[i], UINT32).Some? =>
        ParseUint(fields[i], UINT32).value))
    else None
  }

  function NormalizeSOA(value: string): Option<string> {
    var fields := Fields(value);
    if |fields| != 7 then None
    else
      var ns, mbox, numbers := NormalizeDNSHostname(fields[0]), NormalizeDNSHostname(fields[1]), ParseAll(fields[2..]);
      if ns == "" || mbox == "" || numbers.None? then None
      else Some(Spaced([ns, mbox] + FormatAll(numbers.value)))
  }

  function NormalizeCAA(parsers: Parsers, value: string): Option<string> {
    var fields := Fields(value);
    if |fields| < 3 then None
    else
      var flags, tag := ParseUint(fields[0], UINT8), ToLower(TrimSpace(fields[1]));
      var text := NormalizeDNSTXT(parsers, Spaced(fields[2..]));
      if flags.None? || tag == "" || text == "" then None
      else Some(FormatUint(flags.value) + " " + tag + " " + text)
  }

  function ToUpper(s: string): string {
    seq(|s|, i requires 0 <= i < |s| => if 'a' <= s[i] <= 'z' then s[i] - 'a' + 'A' else s[i])
  }

  function NormalizeDNSRecordValue(parsers: Parsers, value: string, recordType: string): Option<string> {
    var kind := ToUpper(TrimSpace(recordType));
    if kind == "A" then parsers.ipv4(TrimSpace(value))
    else if kind == "AAAA" then
      var address := parsers.ipv6(TrimSpace(value));
      if address.Some? then Some(ToLower(address.value)) else None
    else if kind == "CNAME" || kind == "NS" then
      var host := NormalizeDNSHostname(value);
      if host == "" then None else Some(host)
    else if kind == "MX" then NormalizeMX(value)
    else if kind == "TXT" then Some(NormalizeDNSTXT(parsers, value))
    else if kind == "SOA" then NormalizeSOA(value)
    else if kind == "CAA" then NormalizeCAA(parsers, value)
    else None
  }

  // ---- Print and parse ----

  /** A host field that ends in two dots keeps one of them. */
  predicate EndsInTwoDots(s: string) {
    2 <= |s| && s[|s| - 1] == '.' && s[|s| - 2] == '.'
  }

  lemma LowerIsSpaceless(s: string)
    requires Spaceless(s)
    ensures Spaceless(ToLower(s)) && ToLower(ToLower(s)) == ToLower(s)
  {
    forall i | 0 <= i < |s| ensures !IsSpace(ToLower(s)[i]) && Lower(Lower(s[i])) == Lower(s[i]) {
      assert s[i] in s;
      LowerKeepsSpaces(s[i]);
    }
  }

  /** Normalising a host field a second time changes it exactly if the field ended in two dots. */
  lemma HostAgain(field: string)
    requires Word(field) && NormalizeDNSHostname(field) != ""
    ensures Word(NormalizeDNSHostname(field))
    ensures NormalizeDNSHostname(NormalizeDNSHostname(field)) == NormalizeDNSHostname(field) <==> !EndsInTwoDots(field)
  {
    TrimSpacelessIsIdentity(field);
    var lower, host := ToLower(field), NormalizeDNSHostname(field);
    LowerIsSpaceless(field);
    forall c | c in host ensures !IsSpace(c) {
      assert c in lower;
    }
    TrimSpacelessIsIdentity(host);
    LowerIsSpaceless(host);
    forall i | 0 <= i < |host| ensures ToLower(host)[i] == host[i] {
      assert host[i] == lower[i] && ToLower(lower)[i] == lower[i];
    }
    assert ToLower(host) == host;
    LowerKeepsSpaces(field[|field| - 1]);
    if 2 <= |field| {
      LowerKeepsSpaces(field[|field| - 2]);
    }
  }

  /** Normalising an accepted MX value again gives the same string, if and only if its host field does
      not end in two dots. */
  lemma MXRoundTrip(value: string)
    requires NormalizeMX(value).Some?
    ensures var once := NormalizeMX(value).value;
            && |Fields(value)| == 2
            && (NormalizeMX(once) == Some(once) <==> !EndsInTwoDots(Fields(value)[1]))
  {
    var fields := Fields(value);
    FieldsAreWords(value);
    var priority, host := ParseUint(fields[0], UINT16).value, NormalizeDNSHostname(fields[1]);
    HostAgain(fields[1]);
    ParseFormat(priority, UINT16);
    FieldsOfSpaced([FormatUint(priority), host]);
    if NormalizeDNSHostname(host) != "" {
      HostAgain(host);
      FieldsOfSpaced([FormatUint(priority), NormalizeDNSHostname(host)]);
    }
  }

  /** A family for which it fails: any priority with a name that ends in two dots. */
  lemma TwoDotsAreNotStable(priority: nat, name: string)
    requires priority < UINT16 && Word(name)
    ensures var value := Spaced([FormatUint(priority), name + ".."]);
            && NormalizeMX(value).Some?
            && NormalizeMX(NormalizeMX(value).value) != NormalizeMX(value)
  {
    var host := name + "..";
    assert Word(host);
    ParseFormat(priority, UINT16);
    FieldsOfSpaced([FormatUint(priority), host]);
    HostAgain(host);
    MXRoundTrip(Spaced([FormatUint(priority), host]));
  }

  lemma ParseAllFormatAll(numbers: seq<nat>)
    requires forall n | n in numbers :: n < UINT32
    ensures ParseAll(FormatAll(numbers)) == Some(numbers)
    ensures forall w | w in FormatAll(numbers) :: Word(w)
  {
    forall i | 0 <= i < |numbers|
      ensures ParseUint(FormatAll(numbers)[i], UINT32) == Some(numbers[i]) && Word(FormatAll(numbers)[i])
    {
      assert numbers[i] in numbers;
      ParseFormat(numbers[i], UINT32);
    }
    assert forall f | f in FormatAll(numbers) :: ParseUint(f, UINT32).Some?;
    assert ParseAll(FormatAll(numbers)).value == numbers;
  }

  /** The same for SOA and its two host fields; the five numbers survive as they are. */
  lemma SOARoundTrip(value: string)
    requires NormalizeSOA(value).Some?
    ensures var once := NormalizeSOA(value).value;
            && |Fields(value)| == 7
            && (NormalizeSOA(once) == Some(once)
                <==> !EndsInTwoDots(Fields(value)[0]) && !EndsInTwoDots(Fields(value)[1]))
  {
    var fields := Fields(value);
    FieldsAreWords(value);
    var ns, mbox := NormalizeDNSHostname(fields[0]), NormalizeDNSHostname(fields[1]);
    var numbers := ParseAll(fields[2..]).value;
    HostAgain(fields[0]);
    HostAgain(fields[1]);
    ParseAllFormatAll(numbers);
    var words := [ns, mbox] + FormatAll(numbers);
    FieldsOfSpaced(words);
    assert words[2..] == FormatAll(numbers);
    var ns', mbox' := NormalizeDNSHostname(ns), NormalizeDNSHostname(mbox);
    if ns' != "" && mbox' != "" {
      HostAgain(ns);
      HostAgain(mbox);
      var words' := [ns', mbox'] + FormatAll(numbers);
      FieldsOfSpaced(words');
      assert words'[0] == ns' && words'[1] == mbox';
    }
  }

  /** SOA values for which it fails: host fields that end in two dots, with any five numbers. */
  lemma TwoDotsAreNotStableInSOA(name: string, numbers: seq<nat>)
    requires Word(name) && |numbers| == 5 && forall n | n in numbers :: n < UINT32
    ensures var value := Spaced([name + "..", name + ".."] + FormatAll(numbers));
            && NormalizeSOA(value).Some?
            && NormalizeSOA(NormalizeSOA(value).value) != NormalizeSOA(value)
  {
    var host := name + "..";
    assert Word(host);
    ParseAllFormatAll(numbers);
    var words := [host, host] + FormatAll(numbers);
    FieldsOfSpaced(words);
    assert words[2..] == FormatAll(numbers);
    HostAgain(host);
    SOARoundTrip(Spaced(words));
  }

  // ---- What the values mean ----

  /** The words of a value are read off one after the other, whatever white space is between them. */
  lemma {:induction false} FieldsSplit(a: string, c: char, b: string)
    requires IsSpace(c)
    ensures Fields(a + [c] + b) == Fields(a) + Fields(b)
    decreases |a|
  {
    var s := a + [c] + b;
    if a == "" {
      assert s[1..] == b;
    } else if IsSpace(a[0]) {
      assert s[1..] == a[1..] + [c] + b;
      FieldsSplit(a[1..], c, b);
    } else {
      var n := WordLength(a);
      WordLengthThenSpace(a, c, b);
      assert s[..n] == a[..n] && s[n..] == a[n..] + [c] + b;
      FieldsSplit(a[n..], c, b);
    }
  }

  lemma {:induction false} WordLengthThenSpace(a: string, c: char, b: string)
    requires IsSpace(c)
    ensures WordLength(a + [c] + b) == WordLength(a)
  {
    if a != "" && !IsSpace(a[0]) {
      assert (a + [c] + b)[1..] == a[1..] + [c] + b;
      WordLengthThenSpace(a[1..], c, b);
    }
  }

  lemma {:induction false} SpacedConcat(a: seq<string>, b: seq<string>)
    requires a != [] && b != []
    ensures Spaced(a + b) == Spaced(a) + " " + Spaced(b)
  {
    if |a| == 1 {
      assert (a + b)[1..] == b;
    } else {
      SpacedConcat(a[1..], b);
      assert (a + b)[1..] == a[1..] + b;
    }
  }

  function PowerOfTen(n: nat): nat {
    if n == 0 then 1 else 10 * PowerOfTen(n - 1)
  }

  predicate Digits(s: string) {
    forall c | c in s :: '0' <= c <= '9'
  }

  lemma TimesTen(digit: nat, power: nat, rest: nat, last: nat)
    ensures 10 * (digit * power + rest) + last == digit * (10 * power) + (10 * rest + last)
  {
  }

  lemma LastDigit(init: string, last: char)
    requires Digits(init) && IsDigit(last)
    ensures Digits(init + [last]) && DecimalValue(init + [last]) == 10 * DecimalValue(init) + (last - '0') as nat
  {
    var all := init + [last];
    assert all[..|all| - 1] == init;
  }

  /** The value of a numeral: its first digit counts as often as ten to the number of digits behind it. */
  lemma {:induction false} LeadingDigit(first: char, s: string)
    requires IsDigit(first) && Digits(s)
    ensures Digits([first] + s)
    ensures DecimalValue([first] + s) == (first - '0') as nat * PowerOfTen(|s|) + DecimalValue(s)
  {
    if s == "" {
      LastDigit("", first);
      assert "" + [first] == [first] + s;
    } else {
      var init, last := s[..|s| - 1], s[|s| - 1];
      assert last in s && forall d | d in init :: d in s;
      assert s == init + [last] && [first] + s == [first] + init + [last];
      LeadingDigit(first, init);
      LastDigit(init, last);
      LastDigit([first] + init, last);
      TimesTen((first - '0') as nat, PowerOfTen(|init|), DecimalValue(init), (last - '0') as nat);
    }
  }

  /** A numeral of a number below a limit. */
  predicate Decimal(s: string, limit: nat) {
    s != "" && Digits(s) && DecimalValue(s) < limit
  }

  predicate SameNumber(a: string, b: string) {
    Digits(a) && Digits(b) && DecimalValue(a) == DecimalValue(b)
  }

  /** The numeral of the same number that has no zero in front. */
  predicate IsNumber(field: string, printed: string) {
    SameNumber(field, printed) && printed != "" && (printed[0] == '0' ==> printed == "0")
  }

  lemma {:induction false} NoZeroInFront(n: nat)
    ensures FormatUint(n)[0] == '0' ==> n == 0
  {
    if 10 <= n {
      NoZeroInFront(n / 10);
    }
  }

  lemma NumberIs(field: string, limit: nat)
    requires ParseUint(field, limit).Some?
    ensures IsNumber(field, FormatUint(ParseUint(field, limit).value))
  {
    ValueOfFormat(DecimalValue(field));
    NoZeroInFront(DecimalValue(field));
  }

  lemma SameNumberIff(a: string, b: string, limit: nat)
    requires ParseUint(a, limit).Some? && ParseUint(b, limit).Some?
    ensures FormatUint(ParseUint(a, limit).value) == FormatUint(ParseUint(b, limit).value) <==> SameNumber(a, b)
  {
    ValueOfFormat(DecimalValue(a));
    ValueOfFormat(DecimalValue(b));
  }

  /** A field that names a host. */
  predicate Host(field: string) {
    field != "" && field != "."
  }

  predicate EndsInDot(s: string) {
    s != "" && s[|s| - 1] == '.'
  }

  /** Two host fields are equal up to letter case and one final dot. */
  predicate SameHost(a: string, b: string) {
    || SameUpToCase(a, b)
    || (!EndsInDot(a) && SameUpToCase(a + ".", b))
    || (!EndsInDot(b) && SameUpToCase(a, b + "."))
  }

  predicate HasNoCapitals(s: string) {
    forall c | c in s :: !('A' <= c <= 'Z')
  }

  /** The host a field names: in lower case, without its final dot. */
  predicate IsHost(field: string, host: string) {
    HasNoCapitals(host) && SameUpToCase(if EndsInDot(field) then host + "." else host, field)
  }

  /** A host field, without white space around it, in lower case and without its final dot. */
  lemma HostIs(value: string)
    ensures NormalizeDNSHostname(value) != "" <==> Host(TrimSpace(value))
    ensures IsHost(TrimSpace(value), NormalizeDNSHostname(value))
  {
    TrimSpaceLower(value);
    HostOfLower(TrimSpace(value));
  }

  lemma HostOfLower(field: string)
    ensures TrimOneDot(ToLower(field)) != "" <==> Host(field)
    ensures IsHost(field, TrimOneDot(ToLower(field)))
  {
    ToLowerIs(field, field);
    LastOfLower(field);
    SameTheOtherWay(field, ToLower(field));
    NoCapitalsBeforeDot(ToLower(field));
  }

  lemma SameTheOtherWay(s: string, t: string)
    requires SameUpToCase(s, t)
    ensures SameUpToCase(t, s)
  {
  }

  lemma NoCapitalsBeforeDot(s: string)
    requires HasNoCapitals(s)
    ensures HasNoCapitals(TrimOneDot(s))
    ensures if EndsInDot(s) then s == TrimOneDot(s) + "." else s == TrimOneDot(s)
  {
    assert forall c | c in TrimOneDot(s) :: c in s;
  }

  lemma LastOfLower(s: string)
    ensures EndsInDot(ToLower(s)) <==> EndsInDot(s)
    ensures ToLower(s) == "." <==> s == "."
  {
    if s != "" {
      LowerKeepsSpaces(s[|s| - 1]);
    }
  }

  lemma SameHostIff(a: string, b: string)
    ensures NormalizeDNSHostname(a) == NormalizeDNSHostname(b) <==> SameHost(TrimSpace(a), TrimSpace(b))
  {
    var s, t := TrimSpace(a), TrimSpace(b);
    TrimSpaceLower(a);
    TrimSpaceLower(b);
    LastOfLower(s);
    LastOfLower(t);
    SameHostOfLower(s, t);
  }

  lemma SameHostOfLower(s: string, t: string)
    ensures TrimOneDot(ToLower(s)) == TrimOneDot(ToLower(t)) <==> SameHost(s, t)
  {
    LastOfLower(s);
    LastOfLower(t);
    ToLowerIs(s, t);
    ToLowerIs(s + ".", t);
    ToLowerIs(s, t + ".");
    assert ToLower(s + ".") == ToLower(s) + "." && ToLower(t + ".") == ToLower(t) + ".";
    WithItsDot(ToLower(s));
    WithItsDot(ToLower(t));
    if SameUpToCase(s, t) && s != "" {
      SameEnd(s, t);
    }
    if SameUpToCase(s + ".", t) {
      SameEnd(s + ".", t);
    }
    if SameUpToCase(s, t + ".") {
      SameEnd(s, t + ".");
    }
  }

  lemma WithItsDot(s: string)
    ensures if EndsInDot(s) then s == TrimOneDot(s) + "." else s == TrimOneDot(s)
  {
  }

  lemma SameEnd(s: string, t: string)
    requires SameUpToCase(s, t) && s != ""
    ensures EndsInDot(s) <==> EndsInDot(t)
  {
    assert SameLetter(s[|s| - 1], t[|t| - 1]);
  }

  /** The text a value holds: what the unquoter makes of it or, if it makes nothing of it, what is left
      without the quotes around it. */
  ghost predicate IsText(parsers: Parsers, value: string, text: string) {
    match parsers.unquote(TrimSpace(value))
    case Some(unquoted) => text == unquoted
    case None => IsTrimmed(TrimSpace(value), text, '"')
  }

  lemma TextIff(parsers: Parsers, value: string, text: string)
    ensures NormalizeDNSTXT(parsers, value) == text <==> IsText(parsers, value, text)
  {
    TrimIff(TrimSpace(value), text, '"');
  }

  ghost predicate SameText(parsers: Parsers, a: string, b: string) {
    exists text :: IsText(parsers, a, text) && IsText(parsers, b, text)
  }

  lemma SameTextIff(parsers: Parsers, a: string, b: string)
    ensures NormalizeDNSTXT(parsers, a) == NormalizeDNSTXT(parsers, b) <==> SameText(parsers, a, b)
  {
    TextIff(parsers, a, NormalizeDNSTXT(parsers, a));
    TextIff(parsers, b, NormalizeDNSTXT(parsers, a));
    if text :| IsText(parsers, a, text) && IsText(parsers, b, text) {
      TextIff(parsers, a, text);
      TextIff(parsers, b, text);
    }
  }

  /** The type a check names, in whichever case. */
  predicate IsType(recordType: string, name: string) {
    SameUpToCase(TrimSpace(recordType), name)
  }

  lemma UpperIs(s: string, name: string)
    requires forall c | c in name :: 'A' <= c <= 'Z'
    ensures ToUpper(s) == name <==> SameUpToCase(s, name)
  {
    if ToUpper(s) == name {
      forall i | 0 <= i < |s| ensures SameLetter(s[i], name[i]) {
        assert name[i] == ToUpper(s)[i];
      }
    }
    if SameUpToCase(s, name) {
      forall i | 0 <= i < |s| ensures ToUpper(s)[i] == name[i] {
        assert name[i] in name && SameLetter(s[i], name[i]);
      }
    }
  }

  lemma TypesAre(recordType: string)
    ensures var kind := ToUpper(TrimSpace(recordType));
            && (kind == "A" <==> IsType(recordType, "A")) && (kind == "AAAA" <==> IsType(recordType, "AAAA"))
            && (kind == "CNAME" <==> IsType(recordType, "CNAME")) && (kind == "NS" <==> IsType(recordType, "NS"))
            && (kind == "MX" <==> IsType(recordType, "MX")) && (kind == "TXT" <==> IsType(recordType, "TXT"))
            && (kind == "SOA" <==> IsType(recordType, "SOA")) && (kind == "CAA" <==> IsType(recordType, "CAA"))
  {
    var s := TrimSpace(recordType);
    UpperIs(s, "A"); UpperIs(s, "AAAA"); UpperIs(s, "CNAME"); UpperIs(s, "NS");
    UpperIs(s, "MX"); UpperIs(s, "TXT"); UpperIs(s, "SOA"); UpperIs(s, "CAA");
  }

  /** What is accepted as a mail exchange: a 16-bit number and a host. */
  predicate MailExchange(f: seq<string>) {
    |f| == 2 && Decimal(f[0], 65536) && Host(f[1])
  }

  /** What is accepted as a start of authority: two hosts and five 32-bit numbers. */
  predicate StartOfAuthority(f: seq<string>) {
    |f| == 7 && Host(f[0]) && Host(f[1]) && forall n | 2 <= n < 7 :: Decimal(f[n], 4294967296)
  }

  /** What is accepted as an authorisation: an 8-bit number, a tag, and a text that is not empty. */
  ghost predicate Authorisation(parsers: Parsers, f: seq<string>) {
    3 <= |f| && Decimal(f[0], 256) && !IsText(parsers, Spaced(f[2..]), "")
  }

  /** The values accepted for a type. */
  ghost predicate Acceptable(parsers: Parsers, value: string, recordType: string) {
    || (IsType(recordType, "A") && parsers.ipv4(TrimSpace(value)).Some?)
    || (IsType(recordType, "AAAA") && parsers.ipv6(TrimSpace(value)).Some?)
    || ((IsType(recordType, "CNAME") || IsType(recordType, "NS")) && Host(TrimSpace(value)))
    || (IsType(recordType, "MX") && MailExchange(Fields(value)))
    || IsType(recordType, "TXT")
    || (IsType(recordType, "SOA") && StartOfAuthority(Fields(value)))
    || (IsType(recordType, "CAA") && Authorisation(parsers, Fields(value)))
  }

  /** Two accepted values of a type say the same. */
  ghost predicate Alike(parsers: Parsers, a: string, b: string, recordType: string) {
    var f, g := Fields(a), Fields(b);
    || (IsType(recordType, "A") && parsers.ipv4(TrimSpace(a)) == parsers.ipv4(TrimSpace(b)))
    || (IsType(recordType, "AAAA") && SameAddress(parsers.ipv6(TrimSpace(a)), parsers.ipv6(TrimSpace(b))))
    || ((IsType(recordType, "CNAME") || IsType(recordType, "NS")) && SameHost(TrimSpace(a), TrimSpace(b)))
    || (IsType(recordType, "MX") && |f| == |g| == 2 && SameNumber(f[0], g[0]) && SameHost(f[1], g[1]))
    || (IsType(recordType, "TXT") && SameText(parsers, a, b))
    || (IsType(recordType, "SOA") && |f| == |g| == 7 && SameHost(f[0], g[0]) && SameHost(f[1], g[1])
        && forall n | 2 <= n < 7 :: SameNumber(f[n], g[n]))
    || (IsType(recordType, "CAA") && 3 <= |f| && 3 <= |g| && SameNumber(f[0], g[0]) && SameUpToCase(f[1], g[1])
        && SameText(parsers, Spaced(f[2..]), Spaced(g[2..])))
  }

  predicate SameAddress(a: Option<string>, b: Option<string>) {
    a.Some? && b.Some? && SameUpToCase(a.value, b.value)
  }

  /** How an accepted value of a type is printed. */
  ghost predicate Prints(parsers: Parsers, value: string, recordType: string, printed: string) {
    var f := Fields(value);
    || (IsType(recordType, "A") && parsers.ipv4(TrimSpace(value)) == Some(printed))
    || (IsType(recordType, "AAAA") && HasNoCapitals(printed)
        && SameAddress(parsers.ipv6(TrimSpace(value)), Some(printed)))
    || ((IsType(recordType, "CNAME") || IsType(recordType, "NS")) && IsHost(TrimSpace(value), printed))
    || (IsType(recordType, "MX") && PrintsMX(f, printed))
    || (IsType(recordType, "TXT") && IsText(parsers, value, printed))
    || (IsType(recordType, "SOA") && PrintsSOA(f, printed))
    || (IsType(recordType, "CAA") && PrintsCAA(parsers, f, printed))
  }

  ghost predicate PrintsMX(f: seq<string>, printed: string) {
    |f| == 2 && exists number, host :: printed == number + " " + host && IsNumber(f[0], number) && IsHost(f[1], host)
  }

  ghost predicate PrintsSOA(f: seq<string>, printed: string) {
    |f| == 7
    && exists words :: && printed == Spaced(words) && |words| == 7
                       && IsHost(f[0], words[0]) && IsHost(f[1], words[1])
                       && forall n | 2 <= n < 7 :: IsNumber(f[n], words[n])
  }

  ghost predicate PrintsCAA(parsers: Parsers, f: seq<string>, printed: string) {
    3 <= |f|
    && exists number, tag, text :: && printed == number + " " + tag + " " + text && IsNumber(f[0], number)
                                   && HasNoCapitals(tag) && SameUpToCase(f[1], tag)
                                   && IsText(parsers, Spaced(f[2..]), text)
  }

  lemma FieldIsTrimmed(value: string, n: nat)
    requires n < |Fields(value)|
    ensures TrimSpace(Fields(value)[n]) == Fields(value)[n] && Word(Fields(value)[n])
  {
    FieldsAreWords(value);
    assert Fields(value)[n] in Fields(value);
    TrimSpacelessIsIdentity(Fields(value)[n]);
  }

  lemma SpacedPair(a: string, b: string)
    ensures Spaced([a, b]) == a + " " + b
  {
    assert [a, b][1..] == [b];
  }

  lemma MXIs(value: string)
    ensures NormalizeMX(value).Some? <==> MailExchange(Fields(value))
    ensures NormalizeMX(value).Some? ==> PrintsMX(Fields(value), NormalizeMX(value).value)
  {
    var f := Fields(value);
    if |f| == 2 {
      FieldIsTrimmed(value, 1);
      HostIs(f[1]);
      if NormalizeMX(value).Some? {
        NumberIs(f[0], UINT16);
        var number, host := FormatUint(ParseUint(f[0], UINT16).value), NormalizeDNSHostname(f[1]);
        SpacedPair(number, host);
        assert IsNumber(f[0], number) && IsHost(f[1], host);
      }
    }
  }

  lemma HostIsWord(value: string, n: nat)
    requires n < |Fields(value)| && NormalizeDNSHostname(Fields(value)[n]) != ""
    ensures Word(NormalizeDNSHostname(Fields(value)[n]))
  {
    FieldIsTrimmed(value, n);
    HostAgain(Fields(value)[n]);
  }

  lemma MXAlike(a: string, b: string)
    requires NormalizeMX(a).Some? && NormalizeMX(b).Some?
    ensures var f, g := Fields(a), Fields(b);
            |f| == |g| == 2 && (NormalizeMX(a) == NormalizeMX(b) <==> SameNumber(f[0], g[0]) && SameHost(f[1], g[1]))
  {
    var f, g := Fields(a), Fields(b);
    var p, q := ParseUint(f[0], UINT16).value, ParseUint(g[0], UINT16).value;
    FieldIsTrimmed(a, 1);
    FieldIsTrimmed(b, 1);
    SameHostIff(f[1], g[1]);
    SameNumberIff(f[0], g[0], UINT16);
    HostIsWord(a, 1);
    HostIsWord(b, 1);
    ParseFormat(p, UINT16);
    ParseFormat(q, UINT16);
    SpacedIsInjective([FormatUint(p), NormalizeDNSHostname(f[1])], [FormatUint(q), NormalizeDNSHostname(g[1])]);
  }

  lemma SpacedIsInjective(a: seq<string>, b: seq<string>)
    requires (forall w | w in a :: Word(w)) && forall w | w in b :: Word(w)
    ensures Spaced(a) == Spaced(b) <==> a == b
  {
    FieldsOfSpaced(a);
    FieldsOfSpaced(b);
  }

  lemma NumbersAre(f: seq<string>)
    ensures ParseAll(f).Some? <==> forall n | 0 <= n < |f| :: Decimal(f[n], 4294967296)
    ensures ParseAll(f).Some? ==>
              && |ParseAll(f).value| == |f|
              && forall n | 0 <= n < |f| :: && FormatAll(ParseAll(f).value)[n] == FormatUint(ParseAll(f).value[n])
                                            && ParseUint(f[n], UINT32) == Some(ParseAll(f).value[n])
  {
    assert forall n | 0 <= n < |f| :: f[n] in f;
  }

  lemma SOANumbers(f: seq<string>)
    requires |f| == 7
    ensures ParseAll(f[2..]).Some? <==> forall n | 2 <= n < 7 :: Decimal(f[n], 4294967296)
    ensures ParseAll(f[2..]).Some? ==> forall n | 2 <= n < 7 :: ParseUint(f[n], UINT32).Some?
    ensures ParseAll(f[2..]).Some? ==>
              && |FormatAll(ParseAll(f[2..]).value)| == 5
              && forall n | 2 <= n < 7 ::
                   FormatAll(ParseAll(f[2..]).value)[n - 2] == FormatUint(ParseUint(f[n], UINT32).value)
  {
    NumbersAre(f[2..]);
    assert forall n | 2 <= n < 7 :: f[2..][n - 2] == f[n];
    assert forall n | 0 <= n < 5 :: f[2..][n] == f[n + 2];
  }

  /** The words a start of authority is printed as. */
  function SOAWords(f: seq<string>): (words: seq<string>)
    requires |f| == 7 && ParseAll(f[2..]).Some?
  {
    [NormalizeDNSHostname(f[0]), NormalizeDNSHostname(f[1])] + FormatAll(ParseAll(f[2..]).value)
  }

  lemma SOAWordsAre(value: string)
    requires NormalizeSOA(value).Some?
    ensures var words := SOAWords(Fields(value));
            && |words| == 7 && NormalizeSOA(value) == Some(Spaced(words)) && (forall w | w in words :: Word(w))
            && forall n | 2 <= n < 7 :: ParseUint(Fields(value)[n], UINT32).Some?
                                        && words[n] == FormatUint(ParseUint(Fields(value)[n], UINT32).value)
  {
    var f := Fields(value);
    SOANumbers(f);
    HostIsWord(value, 0);
    HostIsWord(value, 1);
    var words := SOAWords(f);
    assert words[..2] == [NormalizeDNSHostname(f[0]), NormalizeDNSHostname(f[1])];
    forall n | 0 <= n < 7 ensures Word(words[n]) {
      if 2 <= n {
        ParseFormat(ParseUint(f[n], UINT32).value, UINT32);
      }
    }
  }

  lemma SOAIs(value: string)
    ensures NormalizeSOA(value).Some? <==> StartOfAuthority(Fields(value))
    ensures NormalizeSOA(value).Some? ==> PrintsSOA(Fields(value), NormalizeSOA(value).value)
  {
    var f := Fields(value);
    if |f| == 7 {
      SOANumbers(f);
      FieldIsTrimmed(value, 0);
      FieldIsTrimmed(value, 1);
      HostIs(f[0]);
      HostIs(f[1]);
      if NormalizeSOA(value).Some? {
        SOAWordsAre(value);
        var words := SOAWords(f);
        forall n | 2 <= n < 7 ensures IsNumber(f[n], words[n]) {
          NumberIs(f[n], UINT32);
        }
      }
    }
  }

  lemma SOAAlike(a: string, b: string)
    requires NormalizeSOA(a).Some? && NormalizeSOA(b).Some?
    ensures var f, g := Fields(a), Fields(b);
            && |f| == |g| == 7
            && (NormalizeSOA(a) == NormalizeSOA(b)
                <==> SameHost(f[0], g[0]) && SameHost(f[1], g[1]) && forall n | 2 <= n < 7 :: SameNumber(f[n], g[n]))
  {
    var f, g := Fields(a), Fields(b);
    SOAWordsAre(a);
    SOAWordsAre(b);
    var v, w := SOAWords(f), SOAWords(g);
    SpacedIsInjective(v, w);
    forall n | 0 <= n < 2 ensures v[n] == w[n] <==> SameHost(f[n], g[n]) {
      FieldIsTrimmed(a, n);
      FieldIsTrimmed(b, n);
      SameHostIff(f[n], g[n]);
    }
    forall n | 2 <= n < 7 ensures v[n] == w[n] <==> SameNumber(f[n], g[n]) {
      SameNumberIff(f[n], g[n], UINT32);
    }
    assert v == w <==> forall n | 0 <= n < 7 :: v[n] == w[n];
  }

  /** What stands behind a word and a space can be read off. */
  lemma WordsApart(a: string, r: string, b: string, s: string)
    requires Spaceless(a) && Spaceless(b)
    ensures a + " " + r == b + " " + s <==> a == b && r == s
  {
    if a + " " + r == b + " " + s {
      WordThenSpace(a, r);
      WordThenSpace(b, s);
      assert (a + " " + r)[..|a|] == a && (b + " " + s)[..|b|] == b;
      assert (a + " " + r)[|a| + 1..] == r && (b + " " + s)[|b| + 1..] == s;
    }
  }

  lemma TagIs(value: string)
    requires 2 <= |Fields(value)|
    ensures var field, tag := Fields(value)[1], ToLower(TrimSpace(Fields(value)[1]));
            Word(tag) && HasNoCapitals(tag) && SameUpToCase(field, tag) && tag == ToLower(field)
  {
    FieldIsTrimmed(value, 1);
    ToLowerIs(Fields(value)[1], "");
    LowerIsSpaceless(Fields(value)[1]);
  }

  lemma CAAIs(parsers: Parsers, value: string)
    ensures NormalizeCAA(parsers, value).Some? <==> Authorisation(parsers, Fields(value))
    ensures NormalizeCAA(parsers, value).Some? ==> PrintsCAA(parsers, Fields(value), NormalizeCAA(parsers, value).value)
  {
    var f := Fields(value);
    if 3 <= |f| {
      TagIs(value);
      TextIff(parsers, Spaced(f[2..]), "");
      if NormalizeCAA(parsers, value).Some? {
        NumberIs(f[0], UINT8);
        TextIff(parsers, Spaced(f[2..]), NormalizeDNSTXT(parsers, Spaced(f[2..])));
      }
    }
  }

  lemma CAAAlike(parsers: Parsers, a: string, b: string)
    requires NormalizeCAA(parsers, a).Some? && NormalizeCAA(parsers, b).Some?
    ensures var f, g := Fields(a), Fields(b);
            && 3 <= |f| && 3 <= |g|
            && (NormalizeCAA(parsers, a) == NormalizeCAA(parsers, b)
                <==> && SameNumber(f[0], g[0]) && SameUpToCase(f[1], g[1])
                     && SameText(parsers, Spaced(f[2..]), Spaced(g[2..])))
  {
    var f, g := Fields(a), Fields(b);
    var p, q := ParseUint(f[0], UINT8).value, ParseUint(g[0], UINT8).value;
    var s, t := NormalizeDNSTXT(parsers, Spaced(f[2..])), NormalizeDNSTXT(parsers, Spaced(g[2..]));
    TagIs(a);
    TagIs(b);
    ToLowerIs(f[1], g[1]);
    SameNumberIff(f[0], g[0], UINT8);
    SameTextIff(parsers, Spaced(f[2..]), Spaced(g[2..]));
    ParseFormat(p, UINT8);
    ParseFormat(q, UINT8);
    ThreeApart(FormatUint(p), ToLower(f[1]), s, FormatUint(q), ToLower(g[1]), t);
  }

  lemma ThreeApart(a: string, b: string, c: string, a': string, b': string, c': string)
    requires Spaceless(a) && Spaceless(b) && Spaceless(a') && Spaceless(b')
    ensures a + " " + b + " " + c == a' + " " + b' + " " + c' <==> a == a' && b == b' && c == c'
  {
    assert a + " " + b + " " + c == a + " " + (b + " " + c);
    assert a' + " " + b' + " " + c' == a' + " " + (b' + " " + c');
    WordsApart(a, b + " " + c, a', b' + " " + c');
    WordsApart(b, c, b', c');
  }

  /** Which values are accepted, and how they are printed. */
  lemma AcceptedIff(parsers: Parsers, value: string, recordType: string)
    ensures var printed := NormalizeDNSRecordValue(parsers, value, recordType);
            && (printed.Some? <==> Acceptable(parsers, value, recordType))
            && (printed.Some? ==> Prints(parsers, value, recordType, printed.value))
  {
    TypesAre(recordType);
    MXIs(value);
    SOAIs(value);
    CAAIs(parsers, value);
    HostIs(value);
    TextIff(parsers, value, NormalizeDNSTXT(parsers, value));
    if parsers.ipv6(TrimSpace(value)).Some? {
      ToLowerIs(parsers.ipv6(TrimSpace(value)).value, "");
    }
  }

  /** When two accepted values are printed alike. */
  lemma AlikeIff(parsers: Parsers, a: string, b: string, recordType: string)
    requires NormalizeDNSRecordValue(parsers, a, recordType).Some?
    requires NormalizeDNSRecordValue(parsers, b, recordType).Some?
    ensures NormalizeDNSRecordValue(parsers, a, recordType) == NormalizeDNSRecordValue(parsers, b, recordType)
       <==> Alike(parsers, a, b, recordType)
  {
    var kind := ToUpper(TrimSpace(recordType));
    TypesAre(recordType);
    if kind == "AAAA" {
      ToLowerIs(parsers.ipv6(TrimSpace(a)).value, parsers.ipv6(TrimSpace(b)).value);
    } else if kind == "CNAME" || kind == "NS" {
      SameHostIff(a, b);
    } else if kind == "MX" {
      MXAlike(a, b);
    } else if kind == "TXT" {
      SameTextIff(parsers, a, b);
    } else if kind == "SOA" {
      SOAAlike(a, b);
    } else if kind == "CAA" {
      CAAAlike(parsers, a, b);
    }
  }
}
