/** Thread keys: the strings that decide which conversations share an AI thread. */
module ThreadKeys {
  import opened Basics
  import opened TextCoding

  datatype ThreadType = Private | Group
  datatype ThreadPolicy = PrivateSender | GroupShared | GroupSender

  /** An argument given as an enumeration member or as text to be recognised. */
  datatype Argument<T> = Member(value: T) | Named(text: string)

  datatype KeyError = Empty(field: string) | UnknownType | UnknownPolicy | PolicyMismatch
  datatype Result<T> = Ok(value: T) | Err(error: KeyError)

  /** Unicode operations of the host language. */
  datatype Text = Text(strip: string -> string, casefold: string -> string)

  /** SHA-256 in hexadecimal, over bytes. */
  type Digest = seq<Byte> -> string

  const MAX_LENGTH := 96

  function TypeText(t: ThreadType): string {
    match t case Private => "private" case Group => "group"
  }

  function PolicyText(p: ThreadPolicy): string {
    match p case PrivateSender => "private_sender" case GroupShared => "group_shared" case GroupSender => "group_sender"
  }

  function ParseType(s: string): Option<ThreadType> {
    if s == "private" then Some(Private) else if s == "group" then Some(Group) else None
  }

  function ParsePolicy(s: string): Option<ThreadPolicy> {
    if s == "private_sender" then Some(PrivateSender)
    else if s == "group_shared" then Some(GroupShared)
    else if s == "group_sender" then Some(GroupSender)
    else None
  }

  function Required(t: Text, value: Option<string>, field: string): Result<string> {
    if value.None? || t.strip(value.value) == "" then Err(Empty(field)) else Ok(t.strip(value.value))
  }

  function ReadType(t: Text, value: Argument<ThreadType>): Result<ThreadType> {
    match value
    case Member(v) => Ok(v)
    case Named(s) =>
      match Required(t, Some(s), "conversation_type")
      case Err(e) => Err(e)
      case Ok(stripped) => match ParseType(t.casefold(stripped)) case Some(v) => Ok(v) case None => Err(UnknownType)
  }

  function ReadPolicy(t: Text, value: Argument<ThreadPolicy>): Result<ThreadPolicy> {
    match value
    case Member(v) => Ok(v)
    case Named(s) =>
      match Required(t, Some(s), "thread_policy")
      case Err(e) => Err(e)
      case Ok(stripped) => match ParsePolicy(t.casefold(stripped)) case Some(v) => Ok(v) case None => Err(UnknownPolicy)
  }

  // ----- Version 1 -----

  /** What a version 1 key stands for. */
  datatype Place = Place(platform: string, kind: ThreadType, account: string, conversation: string)

  datatype PlaceRequest = PlaceRequest(platform: string, account: string, conversation: string,
    kind: Argument<ThreadType>)

  function Normalize(t: Text, r: PlaceRequest): Result<Place> {
    match ReadType(t, r.kind)
    case Err(e) => Err(e)
    case Ok(kind) =>
      match Required(t, Some(r.platform), "platform")
      case Err(e) => Err(e)
      case Ok(platform) =>
        match Required(t, Some(r.account), "account_id")
        case Err(e) => Err(e)
        case Ok(account) =>
          match Required(t, Some(r.conversation), "physical_conversation_id")
          case Err(e) => Err(e)
          case Ok(conversation) => Ok(Place(t.casefold(platform), kind, account, conversation))
  }

  const PLACE_FIELDS := ["account_id", "conversation_id", "platform", "thread_type"]

  function PlaceValues(p: Place): (r: seq<Value>)
    ensures |r| == |PLACE_FIELDS|
  {
    [Some(p.account), Some(p.conversation), Some(p.platform), Some(TypeText(p.kind))]
  }

  /** The canonical document of a place, as the bytes that are hashed. */
  function Canonical(p: Place): seq<Byte> {
    Utf8("{" + JsonFields(PLACE_FIELDS, PlaceValues(p)) + "\"version\":1}")
  }

  function Readable(p: Place): string {
    Join(["v1", EncodeSegment(p.platform), TypeText(p.kind), EncodeSegment(p.account), EncodeSegment(p.conversation)])
  }

  function Hashed(h: Digest, p: Place): string {
    Join(["v1", "sha256", TypeText(p.kind), h(Canonical(p))])
  }

  function PlaceKey(h: Digest, p: Place): string {
    if |Readable(p)| <= MAX_LENGTH then Readable(p) else Hashed(h, p)
  }

  function BuildThreadKey(t: Text, h: Digest, r: PlaceRequest): Result<string> {
    match Normalize(t, r) case Err(e) => Err(e) case Ok(p) => Ok(PlaceKey(h, p))
  }

  function DecodeReadable(key: string): Option<Place> {
    var s := Split(key);
    if |s| != 5 || s[0] != "v1" then None
    else match (DecodeSegment(s[1]), ParseType(s[2]), DecodeSegment(s[3]), DecodeSegment(s[4]))
      case (Some(platform), Some(kind), Some(account), Some(conversation)) =>
        Some(Place(platform, kind, account, conversation))
      case _ => None
  }

  predicate Hexadecimal(s: string) {
    |s| == 64 && forall i :: 0 <= i < |s| ==> '0' <= s[i] <= '9' || 'a' <= s[i] <= 'f'
  }

  // ----- Version 1: keys and places correspond -----

  lemma TypeTextPlain(k: ThreadType)
    ensures Plain(TypeText(k)) && ParseType(TypeText(k)) == Some(k) && |TypeText(k)| <= 7
  {
  }

  lemma ReadableSegments(p: Place)
    ensures Split(Readable(p))
      == ["v1", EncodeSegment(p.platform), TypeText(p.kind), EncodeSegment(p.account), EncodeSegment(p.conversation)]
  {
    var s := ["v1", EncodeSegment(p.platform), TypeText(p.kind), EncodeSegment(p.account),
      EncodeSegment(p.conversation)];
    SegmentRoundTrip(p.platform);
    SegmentRoundTrip(p.account);
    SegmentRoundTrip(p.conversation);
    TypeTextPlain(p.kind);
    assert Plain("v1");
    assert forall i :: 0 <= i < |s| ==> Plain(s[i]);
    SplitRoundTrip(s);
  }

  /** A readable key decodes to exactly the place it was built from. */
  lemma ReadableKeyDecodes(p: Place)
    ensures DecodeReadable(Readable(p)) == Some(p)
  {
    ReadableSegments(p);
    SegmentRoundTrip(p.platform);
    SegmentRoundTrip(p.account);
    SegmentRoundTrip(p.conversation);
    TypeTextPlain(p.kind);
  }

  lemma JoinLength(a: string, b: string, c: string, d: string)
    ensures |Join([a, b, c, d])| == |a| + |b| + |c| + |d| + 3
  {
    assert [a, b, c, d][1..] == [b, c, d] && [b, c, d][1..] == [c, d] && [c, d][1..] == [d];
    assert Join([c, d]) == c + ":" + Join([d]) && Join([d]) == d;
    assert Join([b, c, d]) == b + ":" + Join([c, d]);
    assert Join([a, b, c, d]) == a + ":" + Join([b, c, d]);
  }

  lemma HashedSegments(h: Digest, p: Place)
    requires Hexadecimal(h(Canonical(p)))
    ensures Split(Hashed(h, p)) == ["v1", "sha256", TypeText(p.kind), h(Canonical(p))]
    ensures |Hashed(h, p)| <= MAX_LENGTH
  {
    var s := ["v1", "sha256", TypeText(p.kind), h(Canonical(p))];
    TypeTextPlain(p.kind);
    assert Plain("v1") && Plain("sha256") && Plain(s[3]);
    assert forall i :: 0 <= i < |s| ==> Plain(s[i]);
    SplitRoundTrip(s);
    JoinLength(s[0], s[1], s[2], s[3]);
  }

  lemma CanonicalInjective(p: Place, q: Place)
    requires Canonical(p) == Canonical(q)
    ensures p == q
  {
    var v, w := JsonFields(PLACE_FIELDS, PlaceValues(p)), JsonFields(PLACE_FIELDS, PlaceValues(q));
    var tail := "\"version\":1}";
    Utf8Injective("{" + v + tail, "{" + w + tail);
    Unwrap("{", v, w, tail);
    FieldsInjective(PLACE_FIELDS, PlaceValues(p), PlaceValues(q));
    assert PlaceValues(p)[0] == PlaceValues(q)[0] && PlaceValues(p)[1] == PlaceValues(q)[1];
    assert PlaceValues(p)[2] == PlaceValues(q)[2] && PlaceValues(p)[3] == PlaceValues(q)[3];
    TypeTextPlain(p.kind);
    TypeTextPlain(q.kind);
  }

  lemma Unwrap(head: string, x: string, y: string, tail: string)
    requires head + x + tail == head + y + tail
    ensures x == y
  {
    var whole := head + x + tail;
    assert |x| == |y|;
    assert whole[|head|..|head| + |x|] == x && whole[|head|..|head| + |y|] == y;
  }

  /** Requests share a version 1 key exactly when they agree in type, platform, account and conversation, once read. */
  lemma RequestsShareIff(t: Text, h: Digest, r: PlaceRequest, q: PlaceRequest)
    requires Normalize(t, r).Ok? && Normalize(t, q).Ok?
    requires var a, b := Canonical(Normalize(t, r).value), Canonical(Normalize(t, q).value);
      Hexadecimal(h(a)) && Hexadecimal(h(b)) && (h(a) == h(b) ==> a == b)
    ensures BuildThreadKey(t, h, r) == BuildThreadKey(t, h, q) <==>
      && ReadType(t, r.kind) == ReadType(t, q.kind)
      && t.casefold(t.strip(r.platform)) == t.casefold(t.strip(q.platform))
      && t.strip(r.account) == t.strip(q.account) && t.strip(r.conversation) == t.strip(q.conversation)
  {
    KeysSeparatePlaces(h, Normalize(t, r).value, Normalize(t, q).value);
  }

  /** Two places share a key exactly when they are the same place, unless SHA-256 itself collides on them. */
  lemma KeysSeparatePlaces(h: Digest, p: Place, q: Place)
    requires Hexadecimal(h(Canonical(p))) && Hexadecimal(h(Canonical(q)))
    requires h(Canonical(p)) == h(Canonical(q)) ==> Canonical(p) == Canonical(q)
    ensures PlaceKey(h, p) == PlaceKey(h, q) <==> p == q
    ensures |PlaceKey(h, p)| <= MAX_LENGTH
  {
    HashedSegments(h, p);
    HashedSegments(h, q);
    ReadableSegments(p);
    ReadableSegments(q);
    if PlaceKey(h, p) == PlaceKey(h, q) {
      if |Readable(p)| <= MAX_LENGTH {
        assert |Split(PlaceKey(h, p))| == 5;
        assert PlaceKey(h, q) == Readable(q);
        ReadableKeyDecodes(p);
        ReadableKeyDecodes(q);
      } else {
        assert |Split(PlaceKey(h, p))| == 4;
        assert PlaceKey(h, q) == Hashed(h, q);
        assert Split(Hashed(h, p))[3] == Split(Hashed(h, q))[3];
        CanonicalInjective(p, q);
      }
    }
  }

  // ----- Version 2 -----

  /** What a version 2 key stands for. */
  datatype Scope = Scope(
    account: string, profile: string, revision: string, conversation: string, kind: ThreadType,
    platform: string, sender: Option<string>, policy: ThreadPolicy)

  datatype ScopeRequest = ScopeRequest(
    platform: string, account: string, conversation: string, kind: Argument<ThreadType>, sender: Option<string>,
    profile: string, revision: Option<string>, policy: Argument<ThreadPolicy>)

  /** private_sender belongs to private conversations, the two group policies to groups. */
  predicate Fits(policy: ThreadPolicy, kind: ThreadType) {
    policy.PrivateSender? <==> kind.Private?
  }

  function NormalizeSender(t: Text, policy: ThreadPolicy, sender: Option<string>): Result<Option<string>> {
    if policy.GroupShared? then Ok(None)
    else match Required(t, sender, "sender_identity_id") case Err(e) => Err(e) case Ok(s) => Ok(Some(s))
  }

  function NormalizeScope(t: Text, r: ScopeRequest): Result<Scope> {
    match ReadType(t, r.kind)
    case Err(e) => Err(e)
    case Ok(kind) =>
      match ReadPolicy(t, r.policy)
      case Err(e) => Err(e)
      case Ok(policy) =>
        if !Fits(policy, kind) then Err(PolicyMismatch)
        else if r.revision.None? then Err(Empty("agent_profile_revision"))
        else match NormalizeSender(t, policy, r.sender)
          case Err(e) => Err(e)
          case Ok(sender) => NormalizeTexts(t, r, kind, policy, sender)
  }

  function NormalizeTexts(t: Text, r: ScopeRequest, kind: ThreadType, policy: ThreadPolicy,
                          sender: Option<string>): Result<Scope> {
    match Required(t, Some(r.account), "account_id")
    case Err(e) => Err(e)
    case Ok(account) =>
      match Required(t, Some(r.profile), "agent_profile_id")
      case Err(e) => Err(e)
      case Ok(profile) =>
        match Required(t, r.revision, "agent_profile_revision")
        case Err(e) => Err(e)
        case Ok(revision) =>
          match Required(t, Some(r.conversation), "physical_conversation_id")
          case Err(e) => Err(e)
          case Ok(conversation) =>
            match Required(t, Some(r.platform), "platform")
            case Err(e) => Err(e)
            case Ok(platform) =>
              Ok(Scope(account, profile, revision, conversation, kind, t.casefold(platform), sender, policy))
  }

  const SCOPE_FIELDS := [
    "account_id", "agent_profile_id", "agent_profile_revision", "conversation_id", "conversation_type",
    "platform", "sender_identity_id", "thread_policy"]

  function ScopeValues(s: Scope): (r: seq<Value>)
    ensures |r| == |SCOPE_FIELDS|
  {
    [Some(s.account), Some(s.profile), Some(s.revision), Some(s.conversation), Some(TypeText(s.kind)),
     Some(s.platform), s.sender, Some(PolicyText(s.policy))]
  }

  function CanonicalScope(s: Scope): seq<Byte> {
    Utf8("{" + JsonFields(SCOPE_FIELDS, ScopeValues(s)) + "\"version\":2}")
  }

  function ScopeKey(h: Digest, s: Scope): string {
    Join(["v2", "sha256", PolicyText(s.policy), h(CanonicalScope(s))])
  }

  function BuildV2ThreadKey(t: Text, h: Digest, r: ScopeRequest): Result<string> {
    match NormalizeScope(t, r) case Err(e) => Err(e) case Ok(s) => Ok(ScopeKey(h, s))
  }

  // ----- Version 2: who shares a thread -----

  lemma PolicyTextPlain(p: ThreadPolicy)
    ensures Plain(PolicyText(p)) && ParsePolicy(PolicyText(p)) == Some(p) && |PolicyText(p)| <= 14
  {
  }

  lemma ScopeSegments(h: Digest, s: Scope)
    requires Hexadecimal(h(CanonicalScope(s)))
    ensures Split(ScopeKey(h, s)) == ["v2", "sha256", PolicyText(s.policy), h(CanonicalScope(s))]
    ensures |ScopeKey(h, s)| <= MAX_LENGTH
  {
    var parts := ["v2", "sha256", PolicyText(s.policy), h(CanonicalScope(s))];
    PolicyTextPlain(s.policy);
    assert Plain("v2") && Plain("sha256") && Plain(parts[3]);
    assert forall i :: 0 <= i < |parts| ==> Plain(parts[i]);
    SplitRoundTrip(parts);
    JoinLength(parts[0], parts[1], parts[2], parts[3]);
  }

  lemma ScopeValuesInjective(r: Scope, s: Scope)
    requires ScopeValues(r) == ScopeValues(s)
    ensures r == s
  {
    var v, w := ScopeValues(r), ScopeValues(s);
    assert v[0] == w[0] && v[1] == w[1] && v[2] == w[2] && v[3] == w[3];
    assert v[4] == w[4] && v[5] == w[5] && v[6] == w[6] && v[7] == w[7];
    TypeTextPlain(r.kind);
    TypeTextPlain(s.kind);
    PolicyTextPlain(r.policy);
    PolicyTextPlain(s.policy);
  }

  lemma CanonicalScopeInjective(r: Scope, s: Scope)
    requires CanonicalScope(r) == CanonicalScope(s)
    ensures r == s
  {
    var v, w := JsonFields(SCOPE_FIELDS, ScopeValues(r)), JsonFields(SCOPE_FIELDS, ScopeValues(s));
    var tail := "\"version\":2}";
    Utf8Injective("{" + v + tail, "{" + w + tail);
    Unwrap("{", v, w, tail);
    FieldsInjective(SCOPE_FIELDS, ScopeValues(r), ScopeValues(s));
    ScopeValuesInjective(r, s);
  }

  /** Two scopes share a key exactly when they are the same scope, and no version 2 key is a version 1 key. */
  lemma KeysSeparateScopes(h: Digest, r: Scope, s: Scope, p: Place)
    requires Hexadecimal(h(CanonicalScope(r))) && Hexadecimal(h(CanonicalScope(s))) && Hexadecimal(h(Canonical(p)))
    requires h(CanonicalScope(r)) == h(CanonicalScope(s)) ==> CanonicalScope(r) == CanonicalScope(s)
    ensures ScopeKey(h, r) == ScopeKey(h, s) <==> r == s
    ensures |ScopeKey(h, r)| <= MAX_LENGTH
    ensures ScopeKey(h, r) != PlaceKey(h, p)
  {
    ScopeSegments(h, r);
    ScopesShareIff(h, r, s);
    ReadableSegments(p);
    HashedSegments(h, p);
    assert Split(PlaceKey(h, p))[0] == "v1" && Split(ScopeKey(h, r))[0] == "v2";
  }

  predicate Blank(t: Text, s: string) {
    t.strip(s) == ""
  }

  /** Requests that differ only in their sender share a thread exactly under group_shared or for the same sender. */
  lemma SendersShareIff(t: Text, h: Digest, r: ScopeRequest, other: Option<string>)
    requires NormalizeScope(t, r).Ok? && NormalizeScope(t, r.(sender := other)).Ok?
    requires var a, b := NormalizeScope(t, r).value, NormalizeScope(t, r.(sender := other)).value;
      && Hexadecimal(h(CanonicalScope(a))) && Hexadecimal(h(CanonicalScope(b)))
      && (h(CanonicalScope(a)) == h(CanonicalScope(b)) ==> CanonicalScope(a) == CanonicalScope(b))
    ensures BuildV2ThreadKey(t, h, r) == BuildV2ThreadKey(t, h, r.(sender := other)) <==>
      (ReadPolicy(t, r.policy) == Ok(GroupShared)
       || (r.sender.Some? && other.Some? && t.strip(r.sender.value) == t.strip(other.value)))
  {
    var a, b := NormalizeScope(t, r).value, NormalizeScope(t, r.(sender := other)).value;
    ScopeSegments(h, a);
    ScopeSegments(h, b);
    if ScopeKey(h, a) == ScopeKey(h, b) {
      assert Split(ScopeKey(h, a))[3] == Split(ScopeKey(h, b))[3];
      CanonicalScopeInjective(a, b);
    }
    assert a == b.(sender := a.sender);
    assert ReadPolicy(t, r.policy) == Ok(a.policy);
  }

  // ----- When there is a key, and what it is made of -----

  predicate Filled(t: Text, s: Option<string>) {
    s.Some? && !Blank(t, s.value)
  }

  predicate Names<T>(t: Text, a: Argument<T>, words: set<string>) {
    a.Member? || (!Blank(t, a.text) && t.casefold(t.strip(a.text)) in words)
  }

  /**
   A version 1 key exists exactly for a known type and three fields that are not blank; the first fault is reported.
   */
  lemma PlaceKeyIff(t: Text, h: Digest, r: PlaceRequest)
    ensures var key := BuildThreadKey(t, h, r);
      && (key.Ok? <==>
            && Names(t, r.kind, {"private", "group"})
            && !Blank(t, r.platform) && !Blank(t, r.account) && !Blank(t, r.conversation))
      && (Names(t, r.kind, {"private", "group"}) && key.Err? ==>
            key.error == Empty(if Blank(t, r.platform) then "platform" else if Blank(t, r.account) then "account_id"
                               else "physical_conversation_id"))
      && (key.Ok? ==> Normalize(t, r) == Ok(PlaceOf(t, r)))
  {
  }

  /** The place a request names, once its texts are stripped and its platform folded. */
  function PlaceOf(t: Text, r: PlaceRequest): Place {
    Place(t.casefold(t.strip(r.platform)), KindOf(t, r.kind), t.strip(r.account), t.strip(r.conversation))
  }

  function KindOf(t: Text, a: Argument<ThreadType>): ThreadType {
    if a.Member? then a.value else if t.casefold(t.strip(a.text)) == "private" then Private else Group
  }

  /** Whoever holds a readable key can tell what was asked for. */
  lemma ReadableRequestDecodes(t: Text, h: Digest, r: PlaceRequest)
    requires BuildThreadKey(t, h, r).Ok? && |Readable(PlaceOf(t, r))| <= MAX_LENGTH
    ensures DecodeReadable(BuildThreadKey(t, h, r).value) == Some(PlaceOf(t, r))
  {
    PlaceKeyIff(t, h, r);
    ReadableKeyDecodes(PlaceOf(t, r));
  }

  /** The policy suits the conversation: private_sender a private one, the two others a group. */
  predicate Suits(t: Text, r: ScopeRequest) {
    match ReadPolicy(t, r.policy)
    case Ok(PrivateSender) => KindOf(t, r.kind) == Private
    case Ok(GroupShared) => KindOf(t, r.kind) == Group
    case Ok(GroupSender) => KindOf(t, r.kind) == Group
    case Err(_) => false
  }

  /** What a version 2 request has to bring: known type and policy that suit each other, texts, and mostly a sender. */
  predicate Complete(t: Text, r: ScopeRequest) {
    && Names(t, r.kind, {"private", "group"}) && Names(t, r.policy, {"private_sender", "group_shared", "group_sender"})
    && Suits(t, r) && Filled(t, r.revision) && (ReadPolicy(t, r.policy) == Ok(GroupShared) || Filled(t, r.sender))
    && !Blank(t, r.account) && !Blank(t, r.profile) && !Blank(t, r.conversation) && !Blank(t, r.platform)
  }

  /** The scope a complete request names. */
  function ScopeOf(t: Text, r: ScopeRequest): Scope
    requires Complete(t, r)
  {
    var policy := ReadPolicy(t, r.policy).value;
    Scope(t.strip(r.account), t.strip(r.profile), t.strip(r.revision.value), t.strip(r.conversation), KindOf(t, r.kind),
          t.casefold(t.strip(r.platform)), if policy.GroupShared? then None else Some(t.strip(r.sender.value)), policy)
  }

  /** A version 2 key exists exactly for a complete request, and stands for the scope it names. */
  lemma ScopeKeyIff(t: Text, h: Digest, r: ScopeRequest)
    ensures BuildV2ThreadKey(t, h, r).Ok? <==> Complete(t, r)
    ensures Complete(t, r) ==> BuildV2ThreadKey(t, h, r) == Ok(ScopeKey(h, ScopeOf(t, r)))
  {
  }

  /** The two requests name the same conversation, agent and policy, and under a policy per sender the same sender. */
  predicate SameScope(t: Text, r: ScopeRequest, q: ScopeRequest)
    requires Complete(t, r) && Complete(t, q)
  {
    && KindOf(t, r.kind) == KindOf(t, q.kind) && ReadPolicy(t, r.policy) == ReadPolicy(t, q.policy)
    && t.casefold(t.strip(r.platform)) == t.casefold(t.strip(q.platform)) && t.strip(r.account) == t.strip(q.account)
    && t.strip(r.conversation) == t.strip(q.conversation) && t.strip(r.profile) == t.strip(q.profile)
    && t.strip(r.revision.value) == t.strip(q.revision.value)
    && (ReadPolicy(t, r.policy) == Ok(GroupShared) || t.strip(r.sender.value) == t.strip(q.sender.value))
  }

  lemma SameScopeIff(t: Text, r: ScopeRequest, q: ScopeRequest)
    requires Complete(t, r) && Complete(t, q)
    ensures ScopeOf(t, r) == ScopeOf(t, q) <==> SameScope(t, r, q)
  {
  }

  /** Complete requests share a version 2 key exactly when they name the same scope. */
  lemma ScopeRequestsShareIff(t: Text, h: Digest, r: ScopeRequest, q: ScopeRequest)
    requires Complete(t, r) && Complete(t, q)
    requires var a, b := CanonicalScope(ScopeOf(t, r)), CanonicalScope(ScopeOf(t, q));
      Hexadecimal(h(a)) && Hexadecimal(h(b)) && (h(a) == h(b) ==> a == b)
    ensures BuildV2ThreadKey(t, h, r) == BuildV2ThreadKey(t, h, q) <==> SameScope(t, r, q)
  {
    ScopeKeyIff(t, h, r);
    ScopeKeyIff(t, h, q);
    SameScopeIff(t, r, q);
    ScopesShareIff(h, ScopeOf(t, r), ScopeOf(t, q));
  }

  lemma ScopesShareIff(h: Digest, r: Scope, s: Scope)
    requires Hexadecimal(h(CanonicalScope(r))) && Hexadecimal(h(CanonicalScope(s)))
    requires h(CanonicalScope(r)) == h(CanonicalScope(s)) ==> CanonicalScope(r) == CanonicalScope(s)
    ensures ScopeKey(h, r) == ScopeKey(h, s) <==> r == s
  {
    ScopeSegments(h, r);
    ScopeSegments(h, s);
    if ScopeKey(h, r) == ScopeKey(h, s) {
      assert Split(ScopeKey(h, r))[3] == Split(ScopeKey(h, s))[3];
      CanonicalScopeInjective(r, s);
    }
  }

  function ValueOf(fields: seq<string>, values: seq<Value>, name: string): Option<Value>
    requires |fields| == |values|
  {
    if fields == [] then None else if fields[0] == name then Some(values[0])
      else ValueOf(fields[1..], values[1..], name)
  }

  lemma {:induction false} ValueIsAt(fields: seq<string>, values: seq<Value>, i: nat)
    requires |fields| == |values| && i < |fields| && forall j: nat :: j < i ==> fields[j] != fields[i]
    ensures ValueOf(fields, values, fields[i]) == Some(values[i])
    decreases i
  {
    if i > 0 {
      assert fields[0] != fields[i];
      ValueIsAt(fields[1..], values[1..], i - 1);
    }
  }

  /** The version 1 document gives each field the request's own value. */
  lemma PlaceDocument(p: Place)
    ensures var value := (name: string) => ValueOf(PLACE_FIELDS, PlaceValues(p), name);
      && value("account_id") == Some(Some(p.account)) && value("conversation_id") == Some(Some(p.conversation))
      && value("platform") == Some(Some(p.platform)) && value("thread_type") == Some(Some(TypeText(p.kind)))
  {
    forall i: nat | i < 4 ensures ValueOf(PLACE_FIELDS, PlaceValues(p), PLACE_FIELDS[i]) == Some(PlaceValues(p)[i]) {
      ValueIsAt(PLACE_FIELDS, PlaceValues(p), i);
    }
    assert PLACE_FIELDS[0] == "account_id" && PLACE_FIELDS[1] == "conversation_id";
    assert PLACE_FIELDS[2] == "platform" && PLACE_FIELDS[3] == "thread_type";
  }

  /** So does the version 2 document; a shared group has no sender. */
  lemma ScopeDocument(s: Scope)
    ensures var value := (name: string) => ValueOf(SCOPE_FIELDS, ScopeValues(s), name);
      && value("account_id") == Some(Some(s.account)) && value("agent_profile_id") == Some(Some(s.profile))
      && value("agent_profile_revision") == Some(Some(s.revision))
      && value("conversation_id") == Some(Some(s.conversation))
      && value("conversation_type") == Some(Some(TypeText(s.kind))) && value("platform") == Some(Some(s.platform))
      && value("sender_identity_id") == Some(s.sender) && value("thread_policy") == Some(Some(PolicyText(s.policy)))
  {
    forall i: nat | i < 8 ensures ValueOf(SCOPE_FIELDS, ScopeValues(s), SCOPE_FIELDS[i]) == Some(ScopeValues(s)[i]) {
      ValueIsAt(SCOPE_FIELDS, ScopeValues(s), i);
    }
    assert SCOPE_FIELDS[0] == "account_id" && SCOPE_FIELDS[1] == "agent_profile_id";
    assert SCOPE_FIELDS[2] == "agent_profile_revision" && SCOPE_FIELDS[3] == "conversation_id";
    assert SCOPE_FIELDS[4] == "conversation_type" && SCOPE_FIELDS[5] == "platform";
    assert SCOPE_FIELDS[6] == "sender_identity_id" && SCOPE_FIELDS[7] == "thread_policy";
  }
}
