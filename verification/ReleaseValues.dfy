/** Helm values on their way from a caller to a release: sanitising, the digest that identifies them, and
    the correlation ID injected at dispatch. */
module ReleaseValues {
  import opened Wire
  import Text

  /** What a caller may submit. Keys outside the allow list and secret-like text are reported as flags. */
  datatype RawValues = RawValues(
    unknownKeys: bool,
    secretLike: bool,
    compatibility: Compatibility,
    observability: RawObservability,
    rest: string)

  /** `endpoint` is the text of the OTLP address, empty if it is missing. */
  datatype RawObservability =
    | RawAbsent
    | RawMalformed
    | RawDisabled
    | RawEnabled(endpoint: string, namespace: string, correlation: string)

  /** SHA-256 of the canonical values, taken as injective. */
  datatype Digest = Digest(values: Values)

  predicate ServiceNamespace(s: string) {
    |s| <= 63 && SafeName(s)
  }

  /** Python's white space. */
  predicate Space(c: char) {
    9 <= c as int <= 13 || 28 <= c as int <= 32 || 0x2000 <= c as int <= 0x200A
    || c as int in {0x85, 0xA0, 0x1680, 0x2028, 0x2029, 0x202F, 0x205F, 0x3000}
  }

  predicate Slash(c: char) {
    c == '/'
  }

  /** The address as it is stored: white space around it is cut off, then the rest is checked, then slashes
      at its end are cut off. `accepts` is the check of the URL's parts. */
  function Endpoint(accepts: string -> bool, text: string): Option<string> {
    var stripped := Text.TrimRight(Text.TrimLeft(text, Space), Space);
    if stripped == "" || !accepts(stripped) then None
    else
      var stored := Text.TrimRight(stripped, Slash);
      if stored == "" then None else Some(stored)
  }

  function SanitizeObservability(accepts: string -> bool, raw: RawObservability): Option<Observability> {
    match raw
    case RawAbsent => Some(NoObservability)
    case RawMalformed => None
    case RawDisabled => Some(Disabled)
    case RawEnabled(text, namespace, _) =>
      var endpoint := Endpoint(accepts, text);
      if endpoint.None? || !ServiceNamespace(namespace) then None
      else Some(Enabled(endpoint.value, namespace, ""))
  }

  function Sanitize(accepts: string -> bool, raw: RawValues): Option<Values> {
    if raw.unknownKeys || raw.secretLike then None
    else
      var o := SanitizeObservability(accepts, raw.observability);
      if o.None? then None else Some(Values(raw.compatibility, o.value, raw.rest))
  }

  /** Stored values, submitted again. */
  function Resubmitted(v: Values): RawValues {
    RawValues(false, false, v.compatibility,
              match v.observability
              case NoObservability => RawAbsent
              case Disabled => RawDisabled
              case Enabled(endpoint, namespace, correlation) => RawEnabled(endpoint, namespace, correlation),
              v.rest)
  }

  function CorrelationChar(c: char): char {
    if Alphanumeric(c) || c in "_.:/@+-" then c else '_'
  }

  /** Unsafe characters become underscores and the text is cut to 64. */
  function CorrelationId(text: string): string {
    var n := if |text| <= 64 then |text| else 64;
    seq(n, i requires 0 <= i < n => CorrelationChar(text[i]))
  }

  /** The values as dispatched: an enabled observability block carries the operation's correlation ID. */
  function Correlate(v: Values, id: JobId): Values {
    if v.observability.Enabled?
    then v.(observability := v.observability.(correlation := CorrelationId(id.text)))
    else v
  }

  // ---------------------------------------------------------------------------------------------
  // Theorems
  // ---------------------------------------------------------------------------------------------

  predicate All(s: string, p: char -> bool) {
    forall i :: 0 <= i < |s| ==> p(s[i])
  }

  /** What is stored of an address: the part between the white space around it, `from` to `to`, without the
      slashes from `end` on. Nothing is stored if that part is not acceptable, or is nothing but slashes. */
  lemma EndpointIsTrimmed(accepts: string -> bool, text: string) returns (from: nat, end: nat, to: nat)
    ensures from <= end <= to <= |text|
    ensures All(text[..from], Space) && All(text[end..to], Slash) && All(text[to..], Space)
    ensures from < to ==> !Space(text[from]) && !Space(text[to - 1])
    ensures from < end ==> !Slash(text[end - 1])
    ensures Endpoint(accepts, text) == if accepts(text[from..to]) && from < end then Some(text[from..end]) else None
  {
    from, to := Text.TrimsToStretch(text, Space);
    var core := text[from..to];
    var stored := Text.TrimRight(core, Slash);
    Text.TrimRightEnds(core, Slash);
    end := from + |stored|;
    assert text[from..end] == stored;
    forall i | end <= i < to ensures Slash(text[i]) { assert text[i] == core[i - from]; }
    if from < end { assert text[end - 1] == stored[|stored| - 1]; }
  }

  /** What is accepted of a caller's values, and that it is stored as it was given: only the address is
      trimmed, and only the correlation ID is dropped. */
  lemma SanitizedKeeps(accepts: string -> bool, raw: RawValues)
    ensures var r := Sanitize(accepts, raw);
      match raw.observability
      case RawEnabled(text, namespace, _) =>
        && (r.Some? <==> && !raw.unknownKeys && !raw.secretLike && Endpoint(accepts, text).Some?
                         && 1 <= |namespace| <= 63 && Alphanumeric(namespace[0]) && All(namespace, IdChar))
        && (r.Some? ==> r.value == Values(raw.compatibility,
                                          Enabled(Endpoint(accepts, text).value, namespace, ""), raw.rest))
      case RawMalformed => r == None
      case other =>
        r == if raw.unknownKeys || raw.secretLike then None
             else Some(Values(raw.compatibility, if other == RawDisabled then Disabled else NoObservability, raw.rest))
  {
  }

  /** A correlation ID is the beginning of the text, up to 64 characters, in which every character that is not
      safe is an underscore. */
  lemma CorrelationIsSafe(text: string)
    ensures var r := CorrelationId(text);
      && |r| == (if |text| <= 64 then |text| else 64)
      && forall i :: 0 <= i < |r| ==>
           if Alphanumeric(text[i]) || text[i] in "_.:/@+-" then r[i] == text[i] else r[i] == '_'
  {
  }

  predicate EndsInSpace(s: string) {
    s != "" && Space(s[|s| - 1])
  }

  /** A stored address is stored unchanged when it is submitted again if and only if it does not end in white
      space, which only slashes can have hidden before, and is acceptable without those slashes. */
  lemma EndpointTwice(accepts: string -> bool, text: string)
    requires Endpoint(accepts, text).Some?
    ensures var stored := Endpoint(accepts, text).value;
      && stored != "" && !Slash(stored[|stored| - 1])
      && (Endpoint(accepts, stored) == Some(stored) <==> !EndsInSpace(stored) && accepts(stored))
  {
    var left := Text.TrimLeft(text, Space);
    var stripped := Text.TrimRight(left, Space);
    var stored := Text.TrimRight(stripped, Slash);
    Text.TrimLeftStarts(text, Space);
    Text.TrimRightEnds(left, Space);
    Text.TrimRightEnds(stripped, Slash);
    assert stored[0] == left[0];
    assert Text.TrimLeft(stored, Space) == stored;
    var again := Text.TrimRight(stored, Space);
    Text.TrimRightEnds(stored, Space);
    Text.TrimRightEnds(again, Slash);
  }

  /** The address, if there is one, meets the condition of `EndpointTwice`. */
  predicate EndpointStays(accepts: string -> bool, v: Values) {
    v.observability.Enabled? ==> !EndsInSpace(v.observability.endpoint) && accepts(v.observability.endpoint)
  }

  /** No caller's correlation ID survives sanitising, and sanitising stored values again changes nothing, so
      that they have the same digest, if and only if their address stays as it is. */
  lemma SanitizedIsStable(accepts: string -> bool, raw: RawValues)
    requires Sanitize(accepts, raw).Some?
    ensures var v := Sanitize(accepts, raw).value;
      Sanitized(v) && (Sanitize(accepts, Resubmitted(v)) == Some(v) <==> EndpointStays(accepts, v))
  {
    if raw.observability.RawEnabled? { EndpointTwice(accepts, raw.observability.endpoint); }
  }

  /** An address for which it does not: the first submission stores "http://host/ ", the second one of what
      was stored gives "http://host", and the digests differ. */
  lemma SlashesHideSpace(accepts: string -> bool, raw: RawValues)
    requires accepts("http://host/ /") && accepts("http://host/")
    requires Sanitize(accepts, raw).Some?
    requires raw.observability.RawEnabled? && raw.observability.endpoint == "http://host/ /"
    ensures var v := Sanitize(accepts, raw).value; var again := Sanitize(accepts, Resubmitted(v));
      && v.observability.endpoint == "http://host/ "
      && again.Some? && again.value.observability.endpoint == "http://host" && Digest(again.value) != Digest(v)
  {
    assert "http://host/ /"[..|"http://host/ /"| - 1] == "http://host/ ";
    assert "http://host/ "[..|"http://host/ "| - 1] == "http://host/";
    assert "http://host/"[..|"http://host/"| - 1] == "http://host";
    assert Endpoint(accepts, "http://host/ /") == Some("http://host/ ");
    assert Endpoint(accepts, "http://host/ ") == Some("http://host");
  }

  lemma CorrelationOfSafeId(id: JobId)
    requires SafeJobId(id)
    ensures CorrelationId(id.text) == id.text
  {
  }

  /** Sanitised values carry no correlation ID of their own. */
  predicate Sanitized(v: Values) {
    v.observability.Enabled? ==> v.observability.correlation == ""
  }

  /** What is dispatched for one operation is as good an identity as the digest: equal exactly when the
      stored values are. Two operations with observability on never dispatch the same values. */
  lemma CorrelationKeepsIdentity(v: Values, w: Values, a: JobId, b: JobId)
    requires Sanitized(v) && Sanitized(w) && SafeJobId(a) && SafeJobId(b)
    ensures Correlate(v, a) == Correlate(w, a) <==> Digest(v) == Digest(w)
    ensures v.observability.Enabled? && Correlate(v, a) == Correlate(w, b) ==> a == b && v == w
  {
    CorrelationOfSafeId(a);
    CorrelationOfSafeId(b);
  }
}
