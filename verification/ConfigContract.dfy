/** The reviewed runtime configuration: which values are accepted, in which form, and what has changed. */
module ConfigContract {
  import opened Wrappers
  import EnvFile
  import EnvEdit
  import EventLog

  type Env = map<string, string>

  datatype Kind = Boolean | Integer(minimum: nat, maximum: nat)

  datatype Spec = Spec(services: set<string>, kind: Kind)

  type Specs = map<string, Spec>

  const RUNTIME_APPLICATION_SERVICES: set<string> := {"api", "worker", "delivery", "web", "gateway"}

  const RUNTIME_CONFIG_ALLOWLIST: Specs := map[
    "PREMIUM_TEST_CHECKOUT_VISIBLE" := Spec({"api"}, Boolean),
    "FREE_DOWNLOAD_QUOTA_ENABLED" := Spec({"api"}, Boolean),
    "FREE_DOWNLOAD_QUOTA_READY_COMPATIBILITY_MODE" := Spec({"api", "delivery", "worker"}, Boolean),
    "FREE_DELIVERY_RATE_LIMIT_ENABLED" := Spec({"api", "delivery"}, Boolean),
    "FREE_DELIVERY_RATE_BYTES_PER_SECOND" := Spec({"api", "delivery"}, Integer(262144, 67108864))
  ]

  // Every receiver of a reviewed key is an application service, and no key is without one.
  ghost predicate Reviewed(specs: Specs, services: set<string>) {
    forall key :: key in specs ==> specs[key].services <= services && specs[key].services != {}
  }

  // ---------------------------------------------------------------- normal forms

  function LowerChar(c: char): char {
    if 'A' <= c <= 'Z' then (c as int + 32) as char else c
  }

  function Lower(s: string): (r: string)
    ensures |r| == |s| && forall i :: 0 <= i < |s| ==> r[i] == LowerChar(s[i])
  {
    seq(|s|, i requires 0 <= i < |s| => LowerChar(s[i]))
  }

  predicate IsDigits(s: string) {
    s != [] && forall i :: 0 <= i < |s| ==> '0' <= s[i] <= '9'
  }

  function ToNat(s: string): nat
    requires forall i :: 0 <= i < |s| ==> '0' <= s[i] <= '9'
  {
    if s == [] then 0 else ToNat(s[..|s| - 1]) * 10 + (s[|s| - 1] as int - '0' as int)
  }

  function NormalizeBoolean(value: string): Option<string> {
    var normalized := Lower(EnvFile.Strip(value));
    if normalized == "true" || normalized == "false" then Some(normalized) else None
  }

  // Decimal digits without a superfluous leading zero are their own rendering.
  function NormalizeInteger(value: string, minimum: nat, maximum: nat): Option<string> {
    var raw := EnvFile.Strip(value);
    if !IsDigits(raw) || (|raw| > 1 && raw[0] == '0') then None
    else if minimum <= ToNat(raw) <= maximum then Some(raw) else None
  }

  function NormalizeValue(value: string, kind: Kind): Option<string> {
    match kind
    case Boolean => NormalizeBoolean(value)
    case Integer(minimum, maximum) => NormalizeInteger(value, minimum, maximum)
  }

  ghost function Normalize(values: Env, specs: Specs): Option<Env> {
    if values.Keys != specs.Keys || (exists key :: key in specs && NormalizeValue(values[key], specs[key].kind).None?)
    then None
    else Some(map key | key in specs :: NormalizeValue(values[key], specs[key].kind).value)
  }

  method NormalizeRuntimeValues(values: Env, specs: Specs) returns (r: Option<Env>)
    ensures r == Normalize(values, specs)
  {
    hide NormalizeValue;
    if values.Keys != specs.Keys {
      return None;
    }
    var remaining, normalized: Env := specs.Keys, map[];
    while remaining != {}
      invariant remaining <= specs.Keys && normalized.Keys == specs.Keys - remaining
      invariant forall key :: key in normalized ==> NormalizeValue(values[key], specs[key].kind) == Some(normalized[key])
      decreases |remaining|
    {
      var key :| key in remaining;
      var value := NormalizeValue(values[key], specs[key].kind);
      if value.None? {
        return None;
      }
      normalized := normalized[key := value.value];
      remaining := remaining - {key};
    }
    assert normalized == map key | key in specs :: NormalizeValue(values[key], specs[key].kind).value;
    return Some(normalized);
  }

  lemma {:induction false} StripsToItself(s: string)
    requires EnvEdit.Plain(s)
    ensures EnvFile.Strip(s) == s
  {
    if s != [] {
      assert !EnvFile.IsSpace(s[0]) && !EnvFile.IsSpace(s[|s| - 1]);
    }
  }

  lemma DigitsArePlain(s: string)
    requires IsDigits(s)
    ensures EnvEdit.Plain(s)
  {
  }

  lemma WordsArePlain(s: string)
    requires s == "true" || s == "false"
    ensures EnvEdit.Plain(s) && Lower(s) == s
  {
  }

  /** A normal form is plain text the env file can carry, and normalising it again gives it back. */
  lemma NormalFormIsPlainAndFixed(value: string, kind: Kind)
    requires NormalizeValue(value, kind).Some?
    ensures var normal := NormalizeValue(value, kind).value;
            EnvEdit.Plain(normal) && NormalizeValue(normal, kind) == Some(normal)
  {
    var normal := NormalizeValue(value, kind).value;
    if kind.Boolean? {
      WordsArePlain(normal);
    } else {
      DigitsArePlain(normal);
    }
    StripsToItself(normal);
    hide EnvFile.Strip, EnvEdit.Plain;
  }

  lemma {:induction false} DecimalReads(n: nat)
    ensures IsDigits(EventLog.Decimal(n)) && ToNat(EventLog.Decimal(n)) == n
    ensures |EventLog.Decimal(n)| > 1 ==> EventLog.Decimal(n)[0] != '0'
  {
    if n >= 10 {
      DecimalReads(n / 10);
      var d := EventLog.Decimal(n);
      assert d[..|d| - 1] == EventLog.Decimal(n / 10);
    }
  }

  lemma OneMoreDigit(n: nat, last: nat)
    requires n > 0 && last < 10
    ensures EventLog.Decimal(n * 10 + last) == EventLog.Decimal(n) + [EventLog.Digit(last)]
  {
    assert (n * 10 + last) / 10 == n && (n * 10 + last) % 10 == last;
  }

  lemma DigitOf(c: char)
    requires '0' <= c <= '9'
    ensures EventLog.Digit(c as int - '0' as int) == c
  {
  }

  lemma {:induction false} DecimalWrites(s: string)
    requires IsDigits(s) && (|s| > 1 ==> s[0] != '0')
    ensures EventLog.Decimal(ToNat(s)) == s && (ToNat(s) == 0 ==> s == "0")
  {
    var front, last := s[..|s| - 1], s[|s| - 1];
    DigitOf(last);
    assert s == front + [last];
    if |s| > 1 {
      assert IsDigits(front) && front[0] == s[0];
      DecimalWrites(front);
      OneMoreDigit(ToNat(front), last as int - '0' as int);
    } else {
      assert front == [] && ToNat(front) == 0;
    }
  }

  // The same letters, whether small or capital.
  predicate SpelledAs(s: string, word: string) {
    |s| == |word| && forall i :: 0 <= i < |s| ==> s[i] == word[i] || ('a' <= word[i] <= 'z' && s[i] as int == word[i] as int - 32)
  }

  /** A switch is accepted exactly when, once the spaces are off, it spells `true` or `false` in any mix of small and
      capital letters, and is that word from then on. */
  lemma BooleanIsReviewed(value: string, normal: string)
    ensures NormalizeValue(value, Boolean) == Some(normal) <==>
              (normal == "true" || normal == "false") && SpelledAs(EnvFile.Strip(value), normal)
  {
    var raw := EnvFile.Strip(value);
    hide EnvFile.Strip;
    forall word | word == "true" || word == "false" ensures SpelledAs(raw, word) <==> Lower(raw) == word {
      WordLetters(word);
      if SpelledAs(raw, word) { assert forall i :: 0 <= i < |raw| ==> Lower(raw)[i] == word[i]; }
      if Lower(raw) == word { assert forall i :: 0 <= i < |raw| ==> LowerChar(raw[i]) == word[i]; }
    }
  }

  lemma WordLetters(word: string)
    requires word == "true" || word == "false"
    ensures forall i :: 0 <= i < |word| ==> 'a' <= word[i] <= 'z'
  {
  }

  /** The integers accepted are the reviewed ones: what is left once the spaces are off is the decimal rendering of a
      number from the minimum to the maximum, and stays as it is. */
  lemma IntegerIsReviewed(value: string, minimum: nat, maximum: nat, normal: string)
    ensures NormalizeValue(value, Integer(minimum, maximum)) == Some(normal) <==>
              EnvFile.Strip(value) == normal && exists n: nat :: minimum <= n <= maximum && normal == EventLog.Decimal(n)
  {
    var raw := EnvFile.Strip(value);
    hide EnvFile.Strip;
    if IsDigits(raw) && (|raw| > 1 ==> raw[0] != '0') { DecimalWrites(raw); }
    forall n: nat | raw == EventLog.Decimal(n) ensures IsDigits(raw) && ToNat(raw) == n && (|raw| > 1 ==> raw[0] != '0') {
      DecimalReads(n);
    }
  }

  lemma NormalizeTwice(values: Env, specs: Specs)
    requires Normalize(values, specs).Some?
    ensures Normalize(Normalize(values, specs).value, specs) == Normalize(values, specs)
  {
    hide NormalizeValue;
    var normal := Normalize(values, specs).value;
    forall key | key in specs ensures NormalizeValue(normal[key], specs[key].kind) == Some(normal[key]) {
      NormalFormIsPlainAndFixed(values[key], specs[key].kind);
    }
    assert normal == map key | key in specs :: NormalizeValue(normal[key], specs[key].kind).value;
  }

  // ---------------------------------------------------------------- what changed

  ghost function ChangedKeys(previous: Env, target: Env, specs: Specs): set<string>
    requires Normalize(previous, specs).Some? && Normalize(target, specs).Some?
  {
    set key | key in specs && Normalize(previous, specs).value[key] != Normalize(target, specs).value[key]
  }

  function AffectedServices(changed: set<string>, specs: Specs): set<string>
    requires changed <= specs.Keys
  {
    set key, service | key in changed && service in specs[key].services :: service
  }

  /** The fingerprints, digests of the normal forms, are equal exactly when nothing changed. */
  lemma SameFingerprintIffNothingChanged(previous: Env, target: Env, specs: Specs)
    requires Normalize(previous, specs).Some? && Normalize(target, specs).Some?
    ensures ChangedKeys(previous, target, specs) == {} <==> Normalize(previous, specs) == Normalize(target, specs)
  {
    hide NormalizeValue;
    var left, right := Normalize(previous, specs).value, Normalize(target, specs).value;
    if ChangedKeys(previous, target, specs) == {} {
      forall key | key in specs ensures left[key] == right[key] {
        assert key !in ChangedKeys(previous, target, specs);
      }
      assert left == right;
    }
  }
}
