/** Sessions and sold-out flags in one store: the store behaves as two, and the latest login wins. */
module Sessions {
  import opened Durations
  import opened Tables
  import opened Cache

  // ---- Histories of the shared store ----

  datatype Event =
    | Login(user: string, token: string)
    | Logout(user: string)
    | FlagTicket(ticket: Id)
    | UnflagTicket(ticket: Id)
    | Wait(duration: nat)

  /** Where refresh tokens are kept, and for how many milliseconds. */
  datatype TokenConfig = TokenConfig(prefix: string, expiresIn: Option<nat>)

  function TokenKey(config: TokenConfig, user: string): string { config.prefix + user }

  /** What an event makes of the store at time `now`. */
  function Effect(config: TokenConfig, store: Store, now: nat, event: Event): Store {
    match event
    case Login(u, token) => store[TokenKey(config, u) := NewEntry(Text(token), config.expiresIn, now)]
    case Logout(u) => store - {TokenKey(config, u)}
    case FlagTicket(t) => store[SoldOutKey(t) := NewEntry(Truth, FLAG_LIFETIME, now)]
    case UnflagTicket(t) => store - {SoldOutKey(t)}
    case Wait(_) => store
  }

  function Clock(h: seq<Event>): nat {
    if h == [] then 0
    else Clock(h[..|h| - 1]) + (if h[|h| - 1].Wait? then h[|h| - 1].duration else 0)
  }

  function StoreAfter(config: TokenConfig, h: seq<Event>): Store {
    if h == [] then map[]
    else Effect(config, StoreAfter(config, h[..|h| - 1]), Clock(h[..|h| - 1]), h[|h| - 1])
  }

  // ---- Two maps of their own ----

  function FlagsAlone(h: seq<Event>): map<Id, Entry> {
    if h == [] then map[]
    else
      var before, event := FlagsAlone(h[..|h| - 1]), h[|h| - 1];
      if event.FlagTicket? then before[event.ticket := NewEntry(Truth, FLAG_LIFETIME, Clock(h[..|h| - 1]))]
      else if event.UnflagTicket? then before - {event.ticket}
      else before
  }

  function TokensAlone(config: TokenConfig, h: seq<Event>): map<string, Entry> {
    if h == [] then map[]
    else
      var before, event := TokensAlone(config, h[..|h| - 1]), h[|h| - 1];
      if event.Login? then before[event.user := NewEntry(Text(event.token), config.expiresIn, Clock(h[..|h| - 1]))]
      else if event.Logout? then before - {event.user}
      else before
  }

  /** The shared store holds each map under its own keys. */
  ghost predicate HoldsBoth(config: TokenConfig, store: Store, flags: map<Id, Entry>, tokens: map<string, Entry>) {
    && (forall t: Id {:trigger SoldOutKey(t)} ::
          (SoldOutKey(t) in store <==> t in flags) && (t in flags ==> store[SoldOutKey(t)] == flags[t]))
    && (forall u: string {:trigger TokenKey(config, u)} ::
          (TokenKey(config, u) in store <==> u in tokens) && (u in tokens ==> store[TokenKey(config, u)] == tokens[u]))
  }

  ghost predicate Apart(config: TokenConfig) {
    !(config.prefix <= SOLD_OUT) && !(SOLD_OUT <= config.prefix)
  }

  lemma SameKeySameOwner(config: TokenConfig, t: Id, t': Id, u: string, u': string)
    ensures SoldOutKey(t) == SoldOutKey(t') ==> t == t'
    ensures TokenKey(config, u) == TokenKey(config, u') ==> u == u'
  {
    assert SoldOutKey(t)[|SOLD_OUT|..] == t.text && SoldOutKey(t')[|SOLD_OUT|..] == t'.text;
    assert TokenKey(config, u)[|config.prefix|..] == u && TokenKey(config, u')[|config.prefix|..] == u';
  }

  lemma EffectKeepsBoth(config: TokenConfig, store: Store, flags: map<Id, Entry>, tokens: map<string, Entry>,
                        now: nat, event: Event)
    requires Apart(config) && HoldsBoth(config, store, flags, tokens)
    ensures HoldsBoth(config, Effect(config, store, now, event),
      match event
        case FlagTicket(t) => flags[t := NewEntry(Truth, FLAG_LIFETIME, now)]
        case UnflagTicket(t) => flags - {t}
        case _ => flags,
      match event
        case Login(u, token) => tokens[u := NewEntry(Text(token), config.expiresIn, now)]
        case Logout(u) => tokens - {u}
        case _ => tokens)
  {
    forall t: Id, t': Id ensures SoldOutKey(t) == SoldOutKey(t') ==> t == t' {
      SameKeySameOwner(config, t, t', "", "");
    }
    forall u: string, u': string ensures TokenKey(config, u) == TokenKey(config, u') ==> u == u' {
      SameKeySameOwner(config, Id(""), Id(""), u, u');
    }
    forall t: Id, u: string ensures SoldOutKey(t) != TokenKey(config, u) {
      KeysDiffer(t, config.prefix, u);
    }
  }

  /** Whatever happens to flags and tokens, in whatever order, each map sees only its own events. */
  lemma {:induction false} SharedStoreIsTwo(config: TokenConfig, h: seq<Event>)
    requires Apart(config)
    ensures HoldsBoth(config, StoreAfter(config, h), FlagsAlone(h), TokensAlone(config, h))
  {
    if h != [] {
      SharedStoreIsTwo(config, h[..|h| - 1]);
      EffectKeepsBoth(config, StoreAfter(config, h[..|h| - 1]), FlagsAlone(h[..|h| - 1]),
                      TokensAlone(config, h[..|h| - 1]), Clock(h[..|h| - 1]), h[|h| - 1]);
    }
  }

  /** The two maps stay apart in every history if and only if neither prefix begins the other. */
  lemma ApartIsExact(config: TokenConfig)
    ensures (forall h: seq<Event> :: HoldsBoth(config, StoreAfter(config, h), FlagsAlone(h), TokensAlone(config, h)))
       <==> Apart(config)
  {
    if Apart(config) {
      forall h: seq<Event> ensures HoldsBoth(config, StoreAfter(config, h), FlagsAlone(h), TokensAlone(config, h)) {
        SharedStoreIsTwo(config, h);
      }
    } else {
      KeysNeverMeet(config.prefix);
      var t: Id, u: string :| SoldOutKey(t) == config.prefix + u;
      var h := [FlagTicket(t)];
      assert h[..0] == [];
      assert TokenKey(config, u) in StoreAfter(config, h) && u !in TokensAlone(config, h);
    }
  }

  // ---- The latest login wins ----

  /** What AuthService.checkIsLoggedIn answers. */
  predicate IsLoggedIn(config: TokenConfig, store: Store, now: nat, user: string, token: string) {
    token != "" && Lookup(store, TokenKey(config, user), now) == Some(Text(token))
  }

  predicate Concerns(event: Event, user: string) {
    (event.Login? || event.Logout?) && event.user == user
  }

  /** The login at `k` is the user's most recent event: no other login and no logout followed. */
  ghost predicate LatestLogin(h: seq<Event>, k: nat, user: string, token: string) {
    k < |h| && h[k] == Login(user, token) && (forall j | k < j < |h| :: !Concerns(h[j], user))
  }

  lemma {:induction false} TokenOfLatestLogin(config: TokenConfig, h: seq<Event>, user: string, token: string, expiry: Option<nat>)
    ensures (user in TokensAlone(config, h) && TokensAlone(config, h)[user] == Entry(Text(token), expiry))
       <==> exists k: nat :: LatestLogin(h, k, user, token)
              && NewEntry(Text(token), config.expiresIn, Clock(h[..k])) == Entry(Text(token), expiry)
  {
    if h != [] {
      var n := |h| - 1;
      var before := h[..n];
      TokenOfLatestLogin(config, before, user, token, expiry);
      forall k: nat | k < n ensures before[..k] == h[..k] {}
      forall k: nat | k < n
        ensures LatestLogin(h, k, user, token) <==> LatestLogin(before, k, user, token) && !Concerns(h[n], user)
      {
        assert forall j | k < j < n :: before[j] == h[j];
        assert LatestLogin(h, k, user, token) ==> !Concerns(h[n], user);
      }
      if h[n] == Login(user, token) {
        assert LatestLogin(h, n, user, token);
      }
    }
  }

  /** How long ago the login at `k` was, in milliseconds. */
  function Age(h: seq<Event>, k: nat): int
    requires k <= |h|
  {
    Clock(h) - Clock(h[..k])
  }

  /** The login at `k` is the user's latest and younger than its lifetime in whole seconds. */
  ghost predicate YoungLogin(config: TokenConfig, h: seq<Event>, k: nat, user: string, token: string)
    requires config.expiresIn.Some?
  {
    LatestLogin(h, k, user, token) && Age(h, k) < config.expiresIn.value / SECONDS * SECONDS
  }

  /** After any history of logins, logouts, flags and waits, a token is accepted exactly when it is the
      token of the user's latest login, no logout followed, and the lifetime is not over. */
  lemma LatestLoginWins(config: TokenConfig, h: seq<Event>, user: string, token: string)
    requires Apart(config) && config.expiresIn.Some? && config.expiresIn.value >= SECONDS
    ensures IsLoggedIn(config, StoreAfter(config, h), Clock(h), user, token)
       <==> (token != "" && exists k: nat :: YoungLogin(config, h, k, user, token))
  {
    SharedStoreIsTwo(config, h);
    var tokens := TokensAlone(config, h);
    var lifetime := config.expiresIn.value / SECONDS * SECONDS;
    if user in tokens && tokens[user].value == Text(token) {
      TokenOfLatestLogin(config, h, user, token, tokens[user].expiresAt);
      var k: nat :| LatestLogin(h, k, user, token)
        && NewEntry(Text(token), config.expiresIn, Clock(h[..k])) == Entry(Text(token), tokens[user].expiresAt);
      forall k': nat | LatestLogin(h, k', user, token) ensures k' == k {
        LatestIsUnique(h, k, k', user, token);
      }
      assert tokens[user].expiresAt == Some(Clock(h[..k]) + lifetime);
      assert Clock(h) < Clock(h[..k]) + lifetime ==> YoungLogin(config, h, k, user, token);
    } else {
      forall k: nat | k < |h| ensures !LatestLogin(h, k, user, token) {
        TokenOfLatestLogin(config, h, user, token, NewEntry(Text(token), config.expiresIn, Clock(h[..k])).expiresAt);
      }
    }
  }

  lemma LatestIsUnique(h: seq<Event>, k: nat, k': nat, user: string, token: string)
    requires LatestLogin(h, k, user, token) && LatestLogin(h, k', user, token)
    ensures k == k'
  {
    assert Concerns(h[k], user) && Concerns(h[k'], user);
  }

  // ---- The service ----

  class AuthService {
    const config: TokenConfig
    const cacheService: RedisService

    constructor (config: TokenConfig, cacheService: RedisService)
      ensures this.config == config && this.cacheService == cacheService
    {
      this.config := config;
      this.cacheService := cacheService;
    }

    /** `tokens` is what the token service generated; its refresh token is stored under the user's key. */
    method Login(id: string, tokens: (string, string), now: nat, link: Link) returns (reply: Reply<(string, string)>)
      modifies cacheService.cacheManager
      ensures cacheService.cacheManager.entries
           == if link.Lost? then old(cacheService.cacheManager.entries)
              else Effect(config, old(cacheService.cacheManager.entries), now, Event.Login(id, tokens.1))
      ensures !link.Lost? ==>
        cacheService.cacheManager.entries == old(cacheService.cacheManager.entries)[config.prefix + id := Entry(Text(tokens.1),
          if config.expiresIn.None? || config.expiresIn.value == 0 then None
          else Some(now + config.expiresIn.value / 1000 * 1000))]
      ensures reply == if link.Works? then Ok(tokens) else Err(FailedToSetRefreshToken)
    {
      var tokenId := TokenKey(config, id);
      var stored := cacheService.SetRefreshToken(tokenId, tokens.1, config.expiresIn, now, link);
      match stored
      case Ok(_) => reply := Ok(tokens);
      case Err(e) => reply := Err(e);
    }

    method Logout(id: string, link: Link) returns (reply: Reply<bool>)
      modifies cacheService.cacheManager
      ensures cacheService.cacheManager.entries
           == if link.Lost? then old(cacheService.cacheManager.entries)
              else Effect(config, old(cacheService.cacheManager.entries), 0, Event.Logout(id))
      ensures !link.Lost? ==> cacheService.cacheManager.entries == old(cacheService.cacheManager.entries) - {config.prefix + id}
      ensures reply == if link.Works? then Ok(true) else Err(FailedToDeleteRefreshToken)
    {
      var deleted := cacheService.DeleteRefreshToken(TokenKey(config, id), link);
      match deleted
      case Ok(_) => reply := Ok(true);
      case Err(e) => reply := Err(e);
    }

    method CheckIsLoggedIn(id: string, refreshToken: string, now: nat, link: Link) returns (reply: Reply<bool>)
      ensures reply.Ok? ==> var key, saved := config.prefix + id, cacheService.cacheManager.entries;
        reply.value <==>
          && refreshToken != "" && key in saved && saved[key].value == Text(refreshToken)
          && (saved[key].expiresAt.Some? ==> now < saved[key].expiresAt.value)
      ensures reply == if link.Works? then Ok(IsLoggedIn(config, cacheService.cacheManager.entries, now, id, refreshToken))
                       else Err(FailedToGetRefreshToken)
    {
      var saved := cacheService.GetRefreshToken(TokenKey(config, id), now, link);
      match saved
      case Ok(found) => reply := Ok(refreshToken != "" && found == Some(Text(refreshToken)));
      case Err(e) => reply := Err(e);
    }
  }
}
