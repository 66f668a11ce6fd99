/** The client-side MAGI panel: which providers are switched on, the quorum
    guard in front of the analysis request, the request it builds, and the
    order in which it shows the vote breakdown. Browser storage is an input
    map from provider to stored key; the request itself is split at its
    `await` into the part that sends it and the part that receives the reply. */
module MagiPanel {
  import opened Text
  import opened Sorting
  import opened Magi

  /** `localStorage`, as far as the panel reads it: the stored API key per provider. */
  type KeyStore = map<Provider, string>

  /** `localStorage.getItem(...) || undefined`: an empty stored string reads as no key. */
  function StoredKey(store: KeyStore, p: Provider): (r: Option<string>)
    ensures r.Some? <==> p in store && store[p] != ""
    ensures r.Some? ==> r.value == store[p]
  {
    if p in store && store[p] != "" then Some(store[p]) else None
  }

  /** `PROVIDER_LABELS`. */
  function ProviderLabel(p: Provider): string {
    match p
    case Claude => "Claude"
    case OpenAI => "ChatGPT"
    case Gemini => "Gemini"
    case Grok => "Grok"
  }

  const QuorumMessage: string := "MAGIシステムには2つ以上のAIが必要です。設定ページでAPIキーを登録してください。"
  const FailureMessage: string := "MAGI分析に失敗しました"

  function MissingKeyMessage(p: Provider): string {
    ProviderLabel(p) + "のAPIキーが設定されていません。設定ページで登録してください。"
  }

  /** How many of `ps` satisfy `f`. */
  function CountWhere(ps: seq<Provider>, f: Provider -> bool): (n: nat)
    ensures n <= |ps|
  {
    if ps == [] then 0 else CountWhere(ps[..|ps| - 1], f) + (if f(ps[|ps| - 1]) then 1 else 0)
  }

  lemma {:induction false} CountWhereSame(ps: seq<Provider>, f: Provider -> bool, g: Provider -> bool)
    requires forall k | 0 <= k < |ps| :: f(ps[k]) == g(ps[k])
    ensures CountWhere(ps, f) == CountWhere(ps, g)
  {
    if ps != [] {
      CountWhereSame(ps[..|ps| - 1], f, g);
    }
  }

  lemma {:induction false} CountWhereMonotone(ps: seq<Provider>, f: Provider -> bool, g: Provider -> bool)
    requires forall k | 0 <= k < |ps| :: f(ps[k]) ==> g(ps[k])
    ensures CountWhere(ps, f) <= CountWhere(ps, g)
  {
    if ps != [] {
      CountWhereMonotone(ps[..|ps| - 1], f, g);
    }
  }

  /** `Object.values(enabledServices).filter(Boolean).length`. */
  function EnabledCount(enabled: map<Provider, bool>): (n: nat)
    ensures n <= 4
  {
    CountWhere(Providers, p => p in enabled && enabled[p])
  }

  /** The number of slots of a request the backend will actually call. */
  function UsableCount(config: MagiConfig): (n: nat)
    ensures n <= 4
  {
    CountWhere(Providers, p => Usable(ConfigFor(config, p)))
  }

  /** The config object of `handleAnalyze`: each provider's switch and the
      key read at call time; no model is sent. */
  function BuildConfig(enabled: map<Provider, bool>, store: KeyStore): (config: MagiConfig)
    requires forall p: Provider :: p in enabled
    ensures forall p: Provider :: ConfigFor(config, p) == ServiceConfig(enabled[p], StoredKey(store, p), None)
  {
    MagiConfig(ServiceConfig(enabled[Claude], StoredKey(store, Claude), None),
               ServiceConfig(enabled[OpenAI], StoredKey(store, OpenAI), None),
               ServiceConfig(enabled[Gemini], StoredKey(store, Gemini), None),
               ServiceConfig(enabled[Grok], StoredKey(store, Grok), None))
  }

  /** The backend calls a provider of the request exactly when the panel had
      it switched on and a non-empty key was stored for it. */
  lemma UsableIffEnabledWithKey(enabled: map<Provider, bool>, store: KeyStore, p: Provider)
    requires forall q: Provider :: q in enabled
    ensures Usable(ConfigFor(BuildConfig(enabled, store), p)) <==> enabled[p] && StoredKey(store, p).Some?
  {
  }

  /** The outcome of `magiApi.analyze`: the response, or the rejection with
      the server's `detail` and the error's `message`, either possibly absent. */
  datatype Reply = Answered(response: MagiResponse) | Rejected(detail: Option<string>, message: Option<string>)

  /** JavaScript's `a || b` for an optional string: absent and empty both fall through. */
  function OrElse(a: Option<string>, b: string): (r: string)
    ensures a.Some? && a.value != "" ==> r == a.value
    ensures a.None? || a.value == "" ==> r == b
  {
    if a.Some? && a.value != "" then a.value else b
  }

  /** The message the panel shows for a rejected request: the server's
      detail, else the error's message, else the fixed failure text. */
  function RejectionMessage(detail: Option<string>, message: Option<string>): (m: string)
    ensures m != ""
    ensures detail.Some? && detail.value != "" ==> m == detail.value
    ensures (detail.None? || detail.value == "") && message.Some? && message.value != "" ==>
              m == message.value
    ensures (detail.None? || detail.value == "") && (message.None? || message.value == "") ==>
              m == FailureMessage
  {
    OrElse(detail, OrElse(message, FailureMessage))
  }

  /** The vote breakdown as displayed: entries sorted by count, largest
      first, equal counts left in the order the backend listed them. */
  function SortedVotes(voteDetail: Tally): (shown: Tally)
    ensures multiset(shown) == multiset(voteDetail)
    ensures forall i, j | 0 <= i < j < |shown| :: shown[i].1 >= shown[j].1
  {
    var shown := SortDesc(voteDetail, (e: (string, nat)) => e.1 as real);
    assert NonIncreasing(shown, (e: (string, nat)) => e.1 as real);
    shown
  }

  /** The four state variables of the panel that decide what it sends. */
  class Panel {
    var isAnalyzing: bool
    var response: Option<MagiResponse>
    var error: Option<string>
    var enabled: map<Provider, bool>

    /** Every provider has a switch. */
    ghost predicate Valid()
      reads this
    {
      forall p: Provider :: p in enabled
    }

    /** Every switched-on provider has a key in `store`. */
    ghost predicate KeysBacked(store: KeyStore)
      reads this
    {
      forall p: Provider :: p in enabled && enabled[p] ==> StoredKey(store, p).Some?
    }

    /** The initial state followed by the mount effect: a provider starts
        switched on exactly when a key is stored for it. */
    constructor Mount(store: KeyStore)
      ensures Valid() && KeysBacked(store)
      ensures forall p: Provider :: enabled[p] == StoredKey(store, p).Some?
      ensures !isAnalyzing && response == None && error == None
    {
      isAnalyzing := false;
      response := None;
      error := None;
      enabled := map[Claude := StoredKey(store, Claude).Some?,
                     OpenAI := StoredKey(store, OpenAI).Some?,
                     Gemini := StoredKey(store, Gemini).Some?,
                     Grok := StoredKey(store, Grok).Some?];
      new;
      forall p: Provider ensures p in enabled && enabled[p] == StoredKey(store, p).Some? {
        match p
        case Claude =>
        case OpenAI =>
        case Gemini =>
        case Grok =>
      }
    }

    /** The analyse button is disabled while a request runs or fewer than
        two providers are switched on. */
    predicate AnalyzeDisabled()
      reads this
    {
      isAnalyzing || EnabledCount(enabled) < 2
    }

    /** `toggleService`: without a stored key the switch stays as it is and
        an error names the provider; otherwise only that provider's switch flips. */
    method ToggleService(store: KeyStore, p: Provider)
      requires Valid()
      modifies this
      ensures Valid()
      ensures StoredKey(store, p).None? ==>
                error == Some(MissingKeyMessage(p)) && enabled == old(enabled)
      ensures StoredKey(store, p).Some? ==>
                error == old(error) && enabled == old(enabled)[p := !old(enabled)[p]]
      ensures isAnalyzing == old(isAnalyzing) && response == old(response)
      ensures old(KeysBacked(store)) ==> KeysBacked(store)
    {
      if StoredKey(store, p).None? {
        error := Some(MissingKeyMessage(p));
        return;
      }
      enabled := enabled[p := !enabled[p]];
    }

    /** `handleAnalyze` up to its `await`: with fewer than two switches on it
        only sets the quorum error and sends nothing; otherwise it marks the
        panel busy, clears the error and the old response, and sends the
        request built from the switches and the keys stored now. */
    method HandleAnalyze(store: KeyStore) returns (request: Option<MagiConfig>)
      requires Valid()
      modifies this
      ensures Valid() && enabled == old(enabled)
      ensures EnabledCount(enabled) < 2 ==>
                && request == None
                && error == Some(QuorumMessage)
                && isAnalyzing == old(isAnalyzing)
                && response == old(response)
      ensures EnabledCount(enabled) >= 2 ==>
                && request == Some(BuildConfig(enabled, store))
                && isAnalyzing
                && error == None
                && response == None
      ensures request.Some? && old(KeysBacked(store)) ==> UsableCount(request.value) >= 2
      ensures old(!AnalyzeDisabled()) ==> request.Some?
    {
      if EnabledCount(enabled) < 2 {
        error := Some(QuorumMessage);
        return None;
      }
      isAnalyzing := true;
      error := None;
      response := None;
      var config := BuildConfig(enabled, store);
      QuorumReachesBackend(enabled, store);
      return Some(config);
    }

    /** The rest of `handleAnalyze`: the reply is stored or turned into an
        error message, and in either case the panel stops being busy. */
    method ReceiveAnalysis(reply: Reply)
      modifies this
      ensures !isAnalyzing && enabled == old(enabled)
      ensures reply.Answered? ==> response == Some(reply.response) && error == old(error)
      ensures reply.Rejected? ==>
                error == Some(RejectionMessage(reply.detail, reply.message)) && response == old(response)
    {
      isAnalyzing := false;
      match reply
      case Answered(r) =>
        response := Some(r);
      case Rejected(detail, message) =>
        error := Some(RejectionMessage(detail, message));
    }
  }

  /** When every switched-on provider has a stored key, the backend calls
      exactly the switched-on providers, so the client's quorum of two is a
      quorum of two calls. */
  lemma QuorumReachesBackend(enabled: map<Provider, bool>, store: KeyStore)
    requires forall p: Provider :: p in enabled
    ensures (forall p: Provider :: enabled[p] ==> StoredKey(store, p).Some?) ==>
              UsableCount(BuildConfig(enabled, store)) == EnabledCount(enabled)
    ensures UsableCount(BuildConfig(enabled, store)) <= EnabledCount(enabled)
  {
    var config := BuildConfig(enabled, store);
    var f := p => p in enabled && enabled[p];
    var g := p => Usable(ConfigFor(config, p));
    CountWhereMonotone(Providers, g, f);
    if forall p: Provider :: enabled[p] ==> StoredKey(store, p).Some? {
      CountWhereSame(Providers, f, g);
    }
  }

  /** A key removed after the switches were set is still switched on: the
      request passes the client's guard, yet the backend calls nobody. */
  lemma GuardCountsSwitchesNotKeys()
    ensures var enabled := map[Claude := true, OpenAI := true, Gemini := false, Grok := false];
      && (forall p: Provider :: p in enabled)
      && EnabledCount(enabled) == 2
      && UsableCount(BuildConfig(enabled, map[])) == 0
  {
    var enabled := map[Claude := true, OpenAI := true, Gemini := false, Grok := false];
    forall p: Provider ensures p in enabled {
      match p
      case Claude =>
      case OpenAI =>
      case Gemini =>
      case Grok =>
    }
    assert Providers[..3] == [Claude, OpenAI, Gemini];
    assert Providers[..3][..2] == [Claude, OpenAI];
    assert Providers[..3][..2][..1] == [Claude];
    assert Providers[..3][..2][..1][..0] == [];
    var f := p => p in enabled && enabled[p];
    assert EnabledCount(enabled) == CountWhere(Providers, f);
    assert CountWhere(Providers[..3][..2][..1], f) == 1;
    assert CountWhere(Providers[..3][..2], f) == 2;
    assert CountWhere(Providers[..3], f) == 2;
    var config := BuildConfig(enabled, map[]);
    CountWhereSame(Providers, p => Usable(ConfigFor(config, p)), p => false);
    assert CountWhere(Providers, p => false) == 0 by {
      CountWhereNone(Providers);
    }
  }

  lemma {:induction false} CountWhereNone(ps: seq<Provider>)
    ensures CountWhere(ps, p => false) == 0
  {
    if ps != [] {
      CountWhereNone(ps[..|ps| - 1]);
    }
  }
}
