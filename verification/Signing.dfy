/** Request signatures: the text that is signed, what the client signs, and what the broker checks. */
module Signing {
  import opened Messages
  import opened Strings

  const MAX_CLOCK_SKEW_SECONDS: real := 300.0

  /** Functions of the platform: SHA-256 in hex, HMAC in hex, and the reading of a decimal number. */
  datatype Platform = Platform(digest: string -> string, mac: (string, string) -> string,
    number: string -> Option<real>)

  // -- text --------------------------------------------------------------

  function Lower(s: string): (t: string)
    ensures |t| == |s|
  {
    seq(|s|, i requires 0 <= i < |s| => if 'A' <= s[i] <= 'Z' then (s[i] as int + 32) as char else s[i])
  }

  function Upper(s: string): (t: string)
    ensures |t| == |s|
  {
    seq(|s|, i requires 0 <= i < |s| => if 'a' <= s[i] <= 'z' then (s[i] as int - 32) as char else s[i])
  }

  // -- what is signed ----------------------------------------------------

  /** The signed fields of a request; an empty key id selects the v2 scheme. */
  datatype Fields = Fields(agent: string, keyId: string, timestamp: string, verb: string, path: string, digest: string)

  predicate Plain(f: Fields) {
    OneLine(f.agent) && OneLine(f.keyId) && OneLine(f.timestamp) && OneLine(f.verb) && OneLine(f.path) &&
      OneLine(f.digest)
  }

  function Parts(f: Fields): seq<string> {
    if f.keyId != "" then [f.agent, f.keyId, f.timestamp, Upper(f.verb), f.path, f.digest]
    else [f.agent, f.timestamp, Upper(f.verb), f.path, f.digest]
  }

  function SignedText(f: Fields): string {
    Join(Parts(f))
  }

  lemma UpperIsOneLine(s: string)
    requires OneLine(s)
    ensures OneLine(Upper(s))
  {
    forall i | 0 <= i < |s| ensures Upper(s)[i] != '\n' {
      assert s[i] in s;
    }
  }

  /** The signed text determines the scheme and every field, the verb up to case. */
  lemma TextDeterminesFields(f: Fields, g: Fields)
    requires Plain(f) && Plain(g)
    ensures SignedText(f) == SignedText(g) <==> f.(verb := Upper(f.verb)) == g.(verb := Upper(g.verb))
  {
    if SignedText(f) == SignedText(g) {
      UpperIsOneLine(f.verb);
      UpperIsOneLine(g.verb);
      JoinIsInjective(Parts(f), Parts(g));
      assert |Parts(f)| == |Parts(g)|;
      assert Parts(f)[0] == Parts(g)[0] && Parts(f)[1] == Parts(g)[1] && Parts(f)[2] == Parts(g)[2];
      assert Parts(f)[3] == Parts(g)[3] && Parts(f)[4] == Parts(g)[4];
    }
  }

  /** With line breaks inside fields, a v2 text can be a v3 text as well. */
  lemma LineBreaksConfuseSchemes()
    ensures SignedText(Fields("a\nk", "", "1", "GET", "/", "d")) == SignedText(Fields("a", "k", "1", "GET", "/", "d"))
  {
    var v2, v3 := Parts(Fields("a\nk", "", "1", "GET", "/", "d")), Parts(Fields("a", "k", "1", "GET", "/", "d"));
    assert v2[1..] == v3[2..];
    assert Join(v3) == "a" + "\n" + Join(v3[1..]);
    assert Join(v3[1..]) == "k" + "\n" + Join(v3[1..][1..]);
    assert v3[1..][1..] == v3[2..];
    assert Join(v2) == "a\nk" + "\n" + Join(v2[1..]);
  }

  function Signature(p: Platform, secret: string, f: Fields): string {
    p.mac(secret, SignedText(f))
  }

  // -- the client --------------------------------------------------------

  datatype Client = Client(agent: string, secret: string, keyId: string)

  function NewClient(agent: string, secret: string, keyId: string): Client {
    Client(Lower(Trim(agent)), secret, Trim(keyId))
  }

  /** A request on the wire. A missing header is empty. */
  datatype SignedRequest = SignedRequest(agent: string, keyId: string, timestamp: string, signature: string,
    verb: string, path: string, body: string)

  function WireBody(verb: string, body: string): string {
    if Upper(verb) == "GET" || Upper(verb) == "HEAD" then "" else body
  }

  function ClientFields(p: Platform, c: Client, verb: string, path: string, body: string, timestamp: string): Fields {
    Fields(c.agent, c.keyId, timestamp, verb, path, p.digest(WireBody(verb, body)))
  }

  function SignRequest(p: Platform, c: Client, verb: string, path: string, body: string,
                       timestamp: string): SignedRequest {
    SignedRequest(c.agent, c.keyId, timestamp, Signature(p, c.secret, ClientFields(p, c, verb, path, body, timestamp)),
            verb, path, WireBody(verb, body))
  }

  // -- the broker --------------------------------------------------------

  datatype SigningKey = SigningKey(secret: string, notAfter: Option<real>)

  type KeyRing = map<string, SigningKey>

  datatype Credentials = Credentials(secret: string, keys: Option<KeyRing>)

  datatype AuthConfig = AuthConfig(shared: string, agents: map<string, Credentials>)

  datatype Verdict = Allowed(agent: string) | Denied(code: string)

  const LEGACY := "legacy"

  function KeyRingFor(config: AuthConfig, agent: string): KeyRing {
    if agent in config.agents && config.agents[agent].keys.Some? then config.agents[agent].keys.value
    else if agent in config.agents && config.agents[agent].secret != "" then
      map[LEGACY := SigningKey(config.agents[agent].secret, None)]
    else map[LEGACY := SigningKey(config.shared, None)]
  }

  /** Some agent signs with a credential of its own. */
  predicate IsolatedAuth(config: AuthConfig) {
    exists name :: name in config.agents &&
      (config.agents[name].secret != "" ||
        (config.agents[name].keys.Some? && OwnRing(config.agents[name].keys.value, config.shared)))
  }

  predicate OwnRing(ring: KeyRing, shared: string) {
    exists id :: id in ring && (id != LEGACY || ring[id].secret != shared)
  }

  predicate CarriesBody(verb: string) {
    verb == "POST" || verb == "PUT" || verb == "PATCH"
  }

  function ReadBody(r: SignedRequest): string {
    if CarriesBody(r.verb) then r.body else ""
  }

  /** The text the broker rebuilds from a request. */
  function RebuiltFields(p: Platform, r: SignedRequest): Fields {
    Fields(Lower(Trim(r.agent)), Trim(r.keyId), r.timestamp, r.verb, r.path, p.digest(ReadBody(r)))
  }

  predicate Timely(p: Platform, timestamp: string, now: real) {
    match p.number(timestamp)
    case None => false
    case Some(ts) => -MAX_CLOCK_SKEW_SECONDS <= now.Floor as real - ts <= MAX_CLOCK_SKEW_SECONDS
  }

  predicate Outdated(key: SigningKey, now: real) {
    key.notAfter.Some? && now > key.notAfter.value
  }

  function Verify(p: Platform, config: AuthConfig, r: SignedRequest, now: real): Verdict {
    var agent, keyId := Lower(Trim(r.agent)), Trim(r.keyId);
    if agent == "" || r.timestamp == "" || r.signature == "" then Denied("unauthenticated")
    else if agent !in config.agents && IsolatedAuth(config) then Denied("unknown_agent")
    else
      var ring, id := KeyRingFor(config, agent), if keyId == "" then LEGACY else keyId;
      if id !in ring || ring[id].secret == "" then Denied(if keyId == "" then "unknown_agent" else "unknown_key")
      else if Outdated(ring[id], now) then Denied("unknown_key")
      else if !Timely(p, r.timestamp, now) then Denied("unauthenticated")
      else if r.signature != Signature(p, ring[id].secret, RebuiltFields(p, r)) then Denied("unauthenticated")
      else Allowed(agent)
  }

  // -- both together -----------------------------------------------------

  lemma TrimTwice(s: string)
    ensures Trim(Trim(s)) == Trim(s) && Trim(Lower(Trim(s))) == Lower(Trim(s))
  {
    var t := Trim(s);
    TrimStartTrims(s);
    TrimEndTrims(TrimStart(s));
    if t != "" {
      assert t[0] == TrimStart(s)[0];
      assert !IsSpace(Lower(t)[0]) && !IsSpace(Lower(t)[|t| - 1]);
    }
  }

  lemma LowerTwice(s: string)
    ensures Lower(Lower(s)) == Lower(s)
  {
  }

  /**
   * The broker rebuilds the text the client signed exactly when both take the same body into account:
   * always for GET, HEAD, POST, PUT and PATCH, and for other verbs only if the body is empty.
   */
  lemma BrokerRebuildsSignedText(p: Platform, agent: string, secret: string, keyId: string, verb: string, path: string,
                                 body: string, timestamp: string)
    requires verb == Upper(verb)
    requires OneLine(agent) && OneLine(keyId) && OneLine(timestamp) && OneLine(verb) && OneLine(path)
    requires OneLine(p.digest(body)) && OneLine(p.digest("")) && (p.digest(body) == p.digest("") ==> body == "")
    ensures var c := NewClient(agent, secret, keyId);
            var r := SignRequest(p, c, verb, path, body, timestamp);
            (SignedText(RebuiltFields(p, r)) == SignedText(ClientFields(p, c, verb, path, body, timestamp)))
            <==> (verb in ["GET", "HEAD", "POST", "PUT", "PATCH"] || body == "")
  {
    var c := NewClient(agent, secret, keyId);
    var r := SignRequest(p, c, verb, path, body, timestamp);
    TrimTwice(agent);
    TrimTwice(keyId);
    LowerTwice(Trim(agent));
    TrimIsOneLine(agent);
    TrimIsOneLine(keyId);
    LowerIsOneLine(Trim(agent));
    TextDeterminesFields(RebuiltFields(p, r), ClientFields(p, c, verb, path, body, timestamp));
  }

  lemma {:induction false} TrimStartIsOneLine(s: string)
    requires OneLine(s)
    ensures OneLine(TrimStart(s))
  {
    if s != "" && IsSpace(s[0]) {
      TrimStartIsOneLine(s[1..]);
    }
  }

  lemma TrimIsOneLine(s: string)
    requires OneLine(s)
    ensures OneLine(Trim(s))
  {
    TrimStartIsOneLine(s);
    TrimEndTrims(TrimStart(s));
    assert forall c :: c in Trim(s) ==> c in TrimStart(s);
  }

  lemma LowerIsOneLine(s: string)
    requires OneLine(s)
    ensures OneLine(Lower(s))
  {
    forall i | 0 <= i < |s| ensures Lower(s)[i] != '\n' {
      assert s[i] in s;
    }
  }

  lemma KnownVerb(verb: string)
    requires verb == "GET" || verb == "HEAD" || CarriesBody(verb)
    ensures Upper(verb) == verb
  {
  }

  // -- whose key it is ---------------------------------------------------

  /**
   * The key that counts for an agent and a key id: one of the agent's own keys if it has a ring, otherwise
   * its own secret, otherwise the shared one; without a ring there is no key id but `legacy`.
   */
  predicate SignsWith(config: AuthConfig, agent: string, keyId: string, key: SigningKey) {
    var id := if keyId == "" then "legacy" else keyId;
    if agent in config.agents && config.agents[agent].keys.Some? then
      id in config.agents[agent].keys.value && config.agents[agent].keys.value[id] == key
    else
      && id == "legacy" && key.notAfter.None?
      && key.secret == if agent in config.agents && config.agents[agent].secret != ""
                       then config.agents[agent].secret else config.shared
  }

  /** Nobody has a credential of its own: all sign with the shared secret. */
  predicate AllShare(config: AuthConfig) {
    forall name :: name in config.agents ==>
      && config.agents[name].secret == ""
      && (config.agents[name].keys.Some? ==>
            forall id :: id in config.agents[name].keys.value ==>
              id == "legacy" && config.agents[name].keys.value[id].secret == config.shared)
  }

  /** The clock reading, in whole seconds, and the time stamp are at most five minutes apart. */
  predicate Fresh(p: Platform, timestamp: string, now: real) {
    p.number(timestamp).Some? &&
    var late := now.Floor as real - p.number(timestamp).value;
    late <= 300.0 && -late <= 300.0
  }

  lemma RingIs(config: AuthConfig, agent: string, keyId: string, key: SigningKey)
    ensures var id := if keyId == "" then "legacy" else keyId;
            SignsWith(config, agent, keyId, key) <==>
              id in KeyRingFor(config, agent) && KeyRingFor(config, agent)[id] == key
    ensures AllShare(config) <==> !IsolatedAuth(config)
  {
    if !AllShare(config) {
      var name :| name in config.agents && !(config.agents[name].secret == "" &&
        (config.agents[name].keys.Some? ==>
          forall id :: id in config.agents[name].keys.value ==>
            id == "legacy" && config.agents[name].keys.value[id].secret == config.shared));
      if config.agents[name].secret == "" {
        var id :| id in config.agents[name].keys.value &&
          !(id == "legacy" && config.agents[name].keys.value[id].secret == config.shared);
        assert OwnRing(config.agents[name].keys.value, config.shared);
      }
    }
  }

  /**
   * A request is let in exactly if it is signed, in time, with a key of its agent that is not out of date;
   * and an agent without configuration only as long as nobody has a credential of its own.
   */
  lemma AllowedIff(p: Platform, config: AuthConfig, r: SignedRequest, now: real)
    ensures var agent, keyId := Lower(Trim(r.agent)), Trim(r.keyId);
            (Verify(p, config, r, now) == Allowed(agent) <==>
               && agent != "" && r.timestamp != "" && r.signature != ""
               && (agent in config.agents || AllShare(config))
               && Fresh(p, r.timestamp, now)
               && exists key :: SignsWith(config, agent, keyId, key) && key.secret != ""
                     && (key.notAfter.Some? ==> now <= key.notAfter.value)
                     && r.signature == p.mac(key.secret, SignedText(RebuiltFields(p, r))))
            && (Verify(p, config, r, now).Allowed? ==> Verify(p, config, r, now).agent == agent)
  {
    hide IsolatedAuth, AllShare, KeyRingFor, SignsWith, Lower, Trim, RebuiltFields, SignedText;
    var agent, keyId := Lower(Trim(r.agent)), Trim(r.keyId);
    var ring, id := KeyRingFor(config, agent), if keyId == "" then "legacy" else keyId;
    forall key ensures SignsWith(config, agent, keyId, key) <==> id in ring && ring[id] == key {
      RingIs(config, agent, keyId, key);
    }
    RingIs(config, agent, keyId, SigningKey("", None));
    if id in ring {
      assert SignsWith(config, agent, keyId, ring[id]);
    }
  }

  /** The signed text, field by field. */
  lemma TextIs(f: Fields)
    ensures SignedText(f) == f.agent + "\n" + (if f.keyId == "" then "" else f.keyId + "\n") + f.timestamp + "\n"
                             + Upper(f.verb) + "\n" + f.path + "\n" + f.digest
  {
    var last := [f.path, f.digest];
    assert last[1..] == [f.digest];
    assert Join(last) == f.path + "\n" + f.digest;
    var middle := [Upper(f.verb)] + last;
    assert middle[1..] == last;
    assert Join(middle) == Upper(f.verb) + "\n" + Join(last);
    var tail := [f.timestamp] + middle;
    assert tail[1..] == middle;
    assert Join(tail) == f.timestamp + "\n" + Join(middle);
    if f.keyId == "" {
      assert Parts(f) == [f.agent] + tail && Parts(f)[1..] == tail;
      assert Join(Parts(f)) == f.agent + "\n" + Join(tail);
    } else {
      var keyed := [f.keyId] + tail;
      assert keyed[1..] == tail;
      assert Join(keyed) == f.keyId + "\n" + Join(tail);
      assert Parts(f) == [f.agent] + keyed && Parts(f)[1..] == keyed;
      assert Join(Parts(f)) == f.agent + "\n" + Join(keyed);
    }
  }

  /** The case of the letters of an agent's name makes no difference. */
  lemma CaseMakesNoDifference(p: Platform, config: AuthConfig, r: SignedRequest, now: real)
    ensures Verify(p, config, r.(agent := Upper(r.agent)), now) == Verify(p, config, r, now)
  {
    hide IsolatedAuth, KeyRingFor, Timely, Outdated, Signature;
    UpperTrims(r.agent);
  }

  lemma UpperTrims(s: string)
    ensures Lower(Trim(Upper(s))) == Lower(Trim(s))
  {
    UpperTrimStart(s);
    UpperTrimEnd(TrimStart(s));
  }

  lemma {:induction false} UpperTrimStart(s: string)
    ensures TrimStart(Upper(s)) == Upper(TrimStart(s))
  {
    if s != "" {
      assert Upper(s)[1..] == Upper(s[1..]);
      if IsSpace(s[0]) {
        UpperTrimStart(s[1..]);
      }
    }
  }

  lemma {:induction false} UpperTrimEnd(s: string)
    ensures TrimEnd(Upper(s)) == Upper(TrimEnd(s)) && Lower(Upper(TrimEnd(s))) == Lower(TrimEnd(s))
  {
    if s != "" {
      assert Upper(s)[..|s| - 1] == Upper(s[..|s| - 1]);
      if IsSpace(s[|s| - 1]) {
        UpperTrimEnd(s[..|s| - 1]);
      }
    }
  }

  /** An honest client whose key is on the agent's ring is let in while the key and the clock are good. */
  lemma HonestClientIsAllowed(p: Platform, config: AuthConfig, c: Client, agent: string, keyId: string, verb: string,
                              path: string, body: string, timestamp: string, now: real, key: SigningKey)
    requires c == NewClient(agent, c.secret, keyId) && c.agent != "" && c.secret != "" && timestamp != ""
    requires verb in ["GET", "HEAD", "POST", "PUT", "PATCH"]
    requires c.agent in config.agents || AllShare(config)
    requires SignsWith(config, c.agent, c.keyId, key) && key.secret == c.secret
    requires Signature(p, c.secret, ClientFields(p, c, verb, path, body, timestamp)) != ""
    ensures Verify(p, config, SignRequest(p, c, verb, path, body, timestamp), now) ==
              if key.notAfter.Some? && now > key.notAfter.value then Denied("unknown_key")
              else if !Fresh(p, timestamp, now) then Denied("unauthenticated")
              else Allowed(c.agent)
  {
    hide IsolatedAuth, AllShare, KeyRingFor, SignsWith, Signature, Trim, Lower, Upper;
    RingIs(config, c.agent, c.keyId, key);
    var r := SignRequest(p, c, verb, path, body, timestamp);
    TrimTwice(agent);
    TrimTwice(keyId);
    LowerTwice(Trim(agent));
    KnownVerb(verb);
    assert RebuiltFields(p, r) == ClientFields(p, c, verb, path, body, timestamp);
  }

  predicate NoCollision(p: Platform, secret: string, a: string, b: string) {
    p.mac(secret, a) == p.mac(secret, b) ==> a == b
  }

  /**
   * A signature lets in one request only: if a request is let in with a signature that was made for
   * some fields under the checked key, then these are its scheme, agent, key id, time, verb, path and
   * body digest.
   */
  lemma SignatureIsForThisRequest(p: Platform, config: AuthConfig, r: SignedRequest, now: real, signed: Fields,
                                  key: SigningKey)
    requires Verify(p, config, r, now).Allowed?
    requires Plain(signed) && Plain(RebuiltFields(p, r))
    requires SignsWith(config, Lower(Trim(r.agent)), Trim(r.keyId), key)
    requires r.signature == Signature(p, key.secret, signed)
    requires NoCollision(p, key.secret, SignedText(signed), SignedText(RebuiltFields(p, r)))
    ensures signed.(verb := Upper(signed.verb)) == RebuiltFields(p, r).(verb := Upper(r.verb))
    ensures Verify(p, config, r, now).agent == signed.agent
  {
    RingIs(config, Lower(Trim(r.agent)), Trim(r.keyId), key);
    TextDeterminesFields(signed, RebuiltFields(p, r));
  }
}
