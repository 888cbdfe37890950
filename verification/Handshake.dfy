// src/handshake.rs: the record choreography of client_handshake_inner and server_handshake_inner as a run of
// two parties over two byte streams. X25519, ML-KEM, key derivation, the identity proof and the AEAD are
// symbolic terms; how a message is dressed as a record is a parameter.
module Handshake {
  import opened Bytes
  import opened Records

  // ── parse_client_auth ──────────────────────────────────────────────────────

  const DEVICE_ID_LEN := 16
  const DEVICE_MARKER: Byte := 0

  datatype AuthError = TooShort | NotUtf8

  /** `[proof:32][0x00][device_id:16][password]`, or the older `[proof:32][password]`. */
  function ParseClientAuth(auth: seq<Byte>, utf8: seq<Byte> -> bool): Result<seq<Byte>, AuthError> {
    if |auth| < 33 then Err(TooShort)
    else
      var password := if |auth| >= 33 + DEVICE_ID_LEN && auth[32] == DEVICE_MARKER
                      then auth[33 + DEVICE_ID_LEN..] else auth[32..];
      if utf8(password) then Ok(password) else Err(NotUtf8)
  }

  function BuildAuth(proof: seq<Byte>, device: seq<Byte>, password: seq<Byte>): seq<Byte> {
    proof + [DEVICE_MARKER] + device + password
  }

  /** The password comes back out of the message the client builds. The older layout is read correctly
      exactly when the password is not empty and does not itself look like a marked device id. */
  lemma AuthRoundTrip(proof: seq<Byte>, device: seq<Byte>, password: seq<Byte>, utf8: seq<Byte> -> bool)
    requires |proof| == 32 && |device| == DEVICE_ID_LEN && utf8(password)
    ensures ParseClientAuth(BuildAuth(proof, device, password), utf8) == Ok(password)
    ensures ParseClientAuth(proof + password, utf8) == Ok(password)
            <==> password != [] && !(|password| > DEVICE_ID_LEN && password[0] == DEVICE_MARKER)
  {
    var auth, oldLayout := BuildAuth(proof, device, password), proof + password;
    assert auth[32] == DEVICE_MARKER;
    assert auth[33 + DEVICE_ID_LEN..] == password;
    assert oldLayout[32..] == password;
    if |password| > DEVICE_ID_LEN {
      assert oldLayout[32] == password[0];
      assert |oldLayout[33 + DEVICE_ID_LEN..]| < |password|;
    }
  }

  /** Where everything is in the message the client builds. */
  lemma AuthLayout(proof: seq<Byte>, device: seq<Byte>, password: seq<Byte>)
    requires |proof| == 32 && |device| == 16
    ensures var auth := BuildAuth(proof, device, password);
            && |auth| == 49 + |password| && auth[32] == 0
            && auth[..32] == proof && auth[33..49] == device && auth[49..] == password
  {
  }

  /** The password in any message of at least 33 bytes. */
  function PasswordIn(auth: seq<Byte>): seq<Byte>
    requires |auth| >= 33
  {
    if |auth| >= 49 && auth[32] == 0 then auth[49..] else auth[32..]
  }

  lemma AuthVerdict(auth: seq<Byte>, utf8: seq<Byte> -> bool)
    ensures ParseClientAuth(auth, utf8) == Err(TooShort) <==> |auth| < 33
    ensures ParseClientAuth(auth, utf8) == Err(NotUtf8) <==> |auth| >= 33 && !utf8(PasswordIn(auth))
    ensures ParseClientAuth(auth, utf8).Ok? ==> |auth| >= 33 && ParseClientAuth(auth, utf8).value == PasswordIn(auth)
  {
  }

  // ── symbolic crypto ────────────────────────────────────────────────────────

  datatype Pub = Pub(owner: nat)
  datatype Shared = Dh(lo: nat, hi: nat)
  datatype Ek = Ek(owner: nat)
  datatype Ct = Ct(owner: nat, coins: nat)
  datatype KemSecret = KemSecret(owner: nat, coins: nat)
  datatype Direction = ServerToClient | ClientToServer
  datatype Key = Key(dir: Direction, dh: Shared, kem: KemSecret)
  datatype Mac = Mac(staticShared: Shared, shared: Shared, transcript: seq<Msg>)

  datatype Plain = Identity(static_: Pub, mac: Mac) | Auth(bytes: seq<Byte>) | AuthOk | TunnelFrame(n: U32)

  datatype Msg =
    | ClientHello(pub: Pub, ek: Ek)
    | ServerHello(ct: Ct, pub: Pub)
    | ChangeCipherSpec
    | Certificate
    | Finished
    | Ticket
    | Sealed(key: Key, plain: Plain)

  function Agree(private_: nat, pub: Pub): Shared {
    if private_ <= pub.owner then Dh(private_, pub.owner) else Dh(pub.owner, private_)
  }

  function Encapsulate(ek: Ek, coins: nat): (Ct, KemSecret) {
    (Ct(ek.owner, coins), KemSecret(ek.owner, coins))
  }

  function Decapsulate(dk: nat, ct: Ct): Option<KemSecret> {
    if ct.owner == dk then Some(KemSecret(dk, ct.coins)) else None
  }

  /** Two agreements give one secret exactly when they are between the same two keys; two encapsulations exactly
      when they are to the same key with the same coins. */
  lemma SecretsDiffer(a: nat, b: nat, c: nat, d: nat)
    ensures Agree(a, Pub(b)) == Agree(c, Pub(d)) <==> (a == c && b == d) || (a == d && b == c)
    ensures Encapsulate(Ek(a), b) == Encapsulate(Ek(c), d) <==> a == c && b == d
    ensures Encapsulate(Ek(a), b).1 == Encapsulate(Ek(c), d).1 <==> a == c && b == d
    ensures Decapsulate(c, Encapsulate(Ek(a), b).0) == if a == c then Some(Encapsulate(Ek(a), b).1) else None
  {
  }

  /** Everything the two honest parties bring along. */
  datatype Config = Config(
    x: nat, dk: nat, device: seq<Byte>, password: seq<Byte>, pin: Option<Pub>, utf8: seq<Byte> -> bool,
    y: nat, coins: nat, identity: nat, expected: seq<Byte>, proofBytes: seq<Byte>
  )

  predicate ConfigOk(g: Config) {
    |g.proofBytes| == 32 && |g.device| == DEVICE_ID_LEN && g.utf8(g.password)
  }

  /** The pin, if any, is this server's key. */
  predicate PinMatches(g: Config) {
    g.pin.None? || g.pin.value == Pub(g.identity)
  }

  predicate Matching(g: Config) {
    PinMatches(g) && g.password == g.expected
  }

  // ── the two programs ───────────────────────────────────────────────────────

  /** A party is its script position and the records it has received. */
  datatype ClientPc = SayHello | Want(n: nat) | SayAuth | WantOk | ClientDone | ClientFailed
  datatype ServerPc = WantHello | Say(n: nat) | WantAuth | SayOk | ServerDone | ServerFailed

  const FLIGHT := 6     // ServerHello, ChangeCipherSpec, Certificate, Finished, NewSessionTicket, identity proof

  function HelloOf(g: Config): Msg {
    ClientHello(Pub(g.x), Ek(g.dk))
  }

  /** The client's codec keys, from the ServerHello it received. */
  function ClientKey(g: Config, hello: Msg, dir: Direction): Option<Key> {
    if !hello.ServerHello? then None
    else
      match Decapsulate(g.dk, hello.ct)
      case None => None
      case Some(kem) => Some(Key(dir, Agree(g.x, hello.pub), kem))
  }

  /** The server's, from the ClientHello it received. */
  function ServerKey(g: Config, hello: Msg, dir: Direction): Option<Key> {
    if !hello.ClientHello? then None
    else Some(Key(dir, Agree(g.y, hello.pub), Encapsulate(hello.ek, g.coins).1))
  }

  function ClientTranscript(g: Config, got: seq<Msg>): seq<Msg>
    requires |got| >= 4
  {
    [HelloOf(g), got[0], got[2], got[3]]
  }

  function ServerHelloFor(g: Config, hello: Msg): Msg
    requires hello.ClientHello?
  {
    ServerHello(Encapsulate(hello.ek, g.coins).0, Pub(g.y))
  }

  function ServerTranscript(g: Config, hello: Msg): seq<Msg>
    requires hello.ClientHello?
  {
    [hello, ServerHelloFor(g, hello), Certificate, Finished]
  }

  /** The n-th record of the server's flight. */
  function FlightRecord(g: Config, hello: Msg, n: nat): Msg
    requires hello.ClientHello? && n < FLIGHT
  {
    if n == 0 then ServerHelloFor(g, hello)
    else if n == 1 then ChangeCipherSpec
    else if n == 2 then Certificate
    else if n == 3 then Finished
    else if n == 4 then Ticket
    else
      Sealed(ServerKey(g, hello, ServerToClient).value,
             Identity(Pub(g.identity),
                      Mac(Agree(g.identity, hello.pub), Agree(g.y, hello.pub), ServerTranscript(g, hello))))
  }

  /** The client's check of the identity proof: it opens, the MAC recomputes, and the pin matches. */
  predicate ProofAccepted(g: Config, got: seq<Msg>, msg: Msg)
    requires |got| == 5
  {
    && ClientKey(g, got[0], ServerToClient).Some?
    && msg.Sealed? && msg.key == ClientKey(g, got[0], ServerToClient).value
    && msg.plain.Identity?
    && msg.plain.mac == Mac(Agree(g.x, msg.plain.static_), Agree(g.x, got[0].pub), ClientTranscript(g, got))
    && (g.pin.Some? ==> msg.plain.static_ == g.pin.value)
  }

  /** The client on its n-th record. */
  function ClientTakes(g: Config, pc: ClientPc, got: seq<Msg>, msg: Msg): ClientPc {
    match pc
    case Want(n) =>
      if n != |got| || n >= FLIGHT then ClientFailed
      else if n == 0 then (if msg.ServerHello? then Want(1) else ClientFailed)
      else if n == 1 then (if msg == ChangeCipherSpec then Want(2) else ClientFailed)
      else if n < 5 then Want(n + 1)
      else if ProofAccepted(g, got, msg) then SayAuth else ClientFailed
    case WantOk =>
      if |got| == FLIGHT && ClientKey(g, got[0], ServerToClient).Some?
         && msg == Sealed(ClientKey(g, got[0], ServerToClient).value, AuthOk)
      then ClientDone else ClientFailed
    case _ => ClientFailed
  }

  function ServerTakes(g: Config, pc: ServerPc, got: seq<Msg>, msg: Msg): ServerPc {
    match pc
    case WantHello => if msg.ClientHello? then Say(0) else ServerFailed
    case WantAuth =>
      if |got| == 1 && ServerKey(g, got[0], ClientToServer).Some? && msg.Sealed?
         && msg.key == ServerKey(g, got[0], ClientToServer).value && msg.plain.Auth?
         && ParseClientAuth(msg.plain.bytes, g.utf8) == Ok(g.expected)
      then SayOk else ServerFailed
    case _ => ServerFailed
  }

  // ── against any peer ───────────────────────────────────────────────────────

  /** Where a client that has said hello is after these records, whoever wrote them. */
  function ClientAfter(g: Config, got: seq<Msg>): ClientPc {
    if |got| == 0 then Want(0)
    else ClientTakes(g, ClientAfter(g, got[..|got| - 1]), got[..|got| - 1], got[|got| - 1])
  }

  /** The identity proof a client with this hello must be shown: sealed under the server-to-client key, its MAC over
      the four messages of the transcript, by the pinned key if one is pinned. */
  predicate IdentityShown(g: Config, got: seq<Msg>)
    requires |got| == 6 && got[0].ServerHello?
  {
    && got[5].Sealed? && got[5].plain.Identity?
    && got[5].key == Key(ServerToClient, Agree(g.x, got[0].pub), KemSecret(g.dk, got[0].ct.coins))
    && got[5].plain.mac == Mac(Agree(g.x, got[5].plain.static_), Agree(g.x, got[0].pub),
                               [ClientHello(Pub(g.x), Ek(g.dk)), got[0], got[2], got[3]])
    && (g.pin == None || g.pin == Some(got[5].plain.static_))
  }

  lemma {:induction false} ClientCountsRecords(g: Config, got: seq<Msg>)
    requires |got| <= 6
    ensures ClientAfter(g, got).Want? ==> ClientAfter(g, got).n == |got| < 6
    ensures |got| < 6 ==> (ClientAfter(g, got) == Want(|got|) <==>
              (|got| > 0 ==> got[0].ServerHello?) && (|got| > 1 ==> got[1] == ChangeCipherSpec))
    ensures |got| < 6 && ClientAfter(g, got) != Want(|got|) ==> ClientAfter(g, got) == ClientFailed
  {
    if |got| > 0 {
      ClientCountsRecords(g, got[..|got| - 1]);
    }
  }

  /** The client goes on to send its password exactly if the six records it got are a ServerHello it can
      decapsulate, a ChangeCipherSpec, any three more, and the identity proof that goes with them; otherwise it
      fails. The ticket is never looked at. */
  lemma PasswordIsSentIff(g: Config, got: seq<Msg>)
    requires |got| == 6
    ensures ClientAfter(g, got) == SayAuth || ClientAfter(g, got) == ClientFailed
    ensures ClientAfter(g, got) == SayAuth <==>
              && got[0].ServerHello? && got[0].ct.owner == g.dk && got[1] == ChangeCipherSpec
              && IdentityShown(g, got)
  {
    ClientCountsRecords(g, got[..5]);
    assert got[..6 - 1] == got[..5];
  }

  /** It accepts exactly an OK under the server-to-client key. */
  lemma OkIsTakenIff(g: Config, got: seq<Msg>, msg: Msg)
    requires |got| == 6 && got[0].ServerHello? && got[0].ct.owner == g.dk
    ensures ClientTakes(g, WantOk, got, msg)
            == if msg == Sealed(Key(ServerToClient, Agree(g.x, got[0].pub), KemSecret(g.dk, got[0].ct.coins)), AuthOk)
               then ClientDone else ClientFailed
  {
  }

  /** The server lets a client in exactly if what follows its hello is sealed under the client-to-server key and
      carries the server's own password. */
  lemma LetInIff(g: Config, hello: Msg, msg: Msg)
    ensures ServerTakes(g, WantHello, [], hello) == if hello.ClientHello? then Say(0) else ServerFailed
    ensures ServerTakes(g, WantAuth, [hello], msg)
            == if && hello.ClientHello? && msg.Sealed? && msg.plain.Auth?
                  && msg.key == Key(ClientToServer, Agree(g.y, hello.pub), KemSecret(hello.ek.owner, g.coins))
                  && |msg.plain.bytes| >= 33 && g.utf8(g.expected) && PasswordIn(msg.plain.bytes) == g.expected
               then SayOk else ServerFailed
  {
    if msg.Sealed? && msg.plain.Auth? {
      AuthVerdict(msg.plain.bytes, g.utf8);
    }
  }

  /** Nothing between the two can have touched what the proof binds: if a client accepts the identity proof that a
      server made for the hello it had received, that hello was the client's, and the client's ServerHello,
      Certificate and Finished are the server's; so both derive the same keys, and the pin is the server's. */
  lemma ProofBindsTranscript(g: Config, server: Config, hello: Msg, got: seq<Msg>)
    requires hello.ClientHello? && |got| == 6 && ClientAfter(g, got) == SayAuth
    requires got[5] == FlightRecord(server, hello, 5)
    ensures hello == HelloOf(g) && got[0] == ServerHelloFor(server, hello)
    ensures got[2] == Certificate && got[3] == Finished
    ensures g.pin == None || g.pin == Some(Pub(server.identity))
    ensures forall dir :: ClientKey(g, got[0], dir).Some? && ClientKey(g, got[0], dir) == ServerKey(server, hello, dir)
  {
    PasswordIsSentIff(g, got);
    var mine, theirs := [HelloOf(g), got[0], got[2], got[3]], ServerTranscript(server, hello);
    assert mine == theirs;
    assert mine[0] == theirs[0] && mine[1] == theirs[1] && mine[2] == theirs[2] && mine[3] == theirs[3];
  }

  // ── the script of an honest run ───────────────────────────────────────────

  /** Diffie-Hellman agrees and the KEM is correct, so the two ends derive the same keys, crossed. */
  lemma KeysAgree(g: Config, dir: Direction)
    ensures ClientKey(g, ServerHelloFor(g, HelloOf(g)), dir) == ServerKey(g, HelloOf(g), dir)
    ensures ServerKey(g, HelloOf(g), dir) == Some(Key(dir, Agree(g.x, Pub(g.y)), KemSecret(g.dk, g.coins)))
    ensures Agree(g.x, Pub(g.identity)) == Agree(g.identity, Pub(g.x))
    ensures Agree(g.x, Pub(g.y)) == Agree(g.y, Pub(g.x))
  {
  }

  function SharedKey(g: Config, dir: Direction): Key {
    ServerKey(g, HelloOf(g), dir).value
  }

  const OK_INDEX := FLIGHT

  /** The records each side writes, in order. */
  function UpScript(g: Config, n: nat): Msg
    requires n < 2
  {
    if n == 0 then HelloOf(g)
    else Sealed(SharedKey(g, ClientToServer), Auth(BuildAuth(g.proofBytes, g.device, g.password)))
  }

  function DownScript(g: Config, n: nat): Msg
    requires n <= OK_INDEX
  {
    if n < FLIGHT then FlightRecord(g, HelloOf(g), n) else Sealed(SharedKey(g, ServerToClient), AuthOk)
  }

  /** The messages that can occur between honest parties. */
  predicate Carried(g: Config, m: Msg) {
    || m == UpScript(g, 0) || m == UpScript(g, 1)
    || m == DownScript(g, 0) || m == DownScript(g, 1) || m == DownScript(g, 2) || m == DownScript(g, 3)
    || m == DownScript(g, 4) || m == DownScript(g, 5) || m == DownScript(g, OK_INDEX)
    || (m.Sealed? && m.plain.TunnelFrame? && m.key == SharedKey(g, m.key.dir))
  }

  // ── the wires ──────────────────────────────────────────────────────────────

  /** How messages become records. */
  datatype Dressing = Dressing(dress: Msg -> seq<Byte>, undress: seq<Byte> -> Option<Msg>)

  /** Every message that can occur is one record and can be read back from it. */
  ghost predicate Faithful(g: Config, d: Dressing) {
    forall m: Msg :: Carried(g, m) ==> Exact(d.dress(m)) && d.undress(d.dress(m)) == Some(m)
  }

  /** Such a dressing exists: ten-byte records tagged with the kind of message. */
  function TagRecord(tag: Byte, n: U32): seq<Byte> {
    [0x17, 3, 3, 0, 5, tag] + Be32(n)
  }

  function Dress(m: Msg): seq<Byte> {
    match m
    case ClientHello(_, _) => TagRecord(0, 0)
    case ServerHello(_, _) => TagRecord(1, 0)
    case ChangeCipherSpec => TagRecord(2, 0)
    case Certificate => TagRecord(3, 0)
    case Finished => TagRecord(4, 0)
    case Ticket => TagRecord(5, 0)
    case Sealed(key, plain) =>
      match plain
      case Identity(_, _) => TagRecord(6, 0)
      case Auth(_) => TagRecord(7, 0)
      case AuthOk => TagRecord(8, 0)
      case TunnelFrame(n) => TagRecord(if key.dir == ServerToClient then 9 else 10, n)
  }

  function Undress(g: Config, r: seq<Byte>): Option<Msg> {
    if |r| != 10 || r[5] > 10 then None
    else if r[5] == 0 then Some(UpScript(g, 0))
    else if r[5] == 7 then Some(UpScript(g, 1))
    else if r[5] == 8 then Some(DownScript(g, OK_INDEX))
    else if r[5] <= 6 then Some(DownScript(g, r[5] - 1))
    else
      var dir := if r[5] == 9 then ServerToClient else ClientToServer;
      Some(Sealed(SharedKey(g, dir), TunnelFrame(FromBe32(r[6], r[7], r[8], r[9]))))
  }

  lemma FaithfulDressingExists(g: Config)
    ensures exists d: Dressing :: Faithful(g, d)
  {
    var d := Dressing(Dress, r => Undress(g, r));
    forall m: Msg | Carried(g, m)
      ensures Exact(d.dress(m)) && d.undress(d.dress(m)) == Some(m)
    {
      UndressInverts(g, m);
    }
    assert Faithful(g, d);
  }

  lemma UndressInverts(g: Config, m: Msg)
    requires Carried(g, m)
    ensures Exact(Dress(m)) && Undress(g, Dress(m)) == Some(m)
  {
    if m.Sealed? && m.plain.TunnelFrame? {
      Be32RoundTrip(m.plain.n);
    }
  }

  /** One direction: the messages written, how many bytes the reader has pulled off the socket, and how
      many records its RecordReader has handed out. */
  datatype Stream = Stream(written: seq<Msg>, arrived: nat, taken: nat)

  function Dressed(d: Dressing, msgs: seq<Msg>): seq<Byte> {
    if |msgs| == 0 then [] else Dressed(d, msgs[..|msgs| - 1]) + d.dress(msgs[|msgs| - 1])
  }

  lemma {:induction false} DressedSplit(d: Dressing, msgs: seq<Msg>, n: nat)
    requires n <= |msgs|
    ensures Dressed(d, msgs) == Dressed(d, msgs[..n]) + Dressed(d, msgs[n..])
  {
    if n == |msgs| {
      assert msgs[..n] == msgs && msgs[n..] == [];
    } else {
      var front := msgs[..|msgs| - 1];
      DressedSplit(d, front, n);
      assert front[..n] == msgs[..n] && front[n..] == msgs[n..][..|msgs[n..]| - 1];
      Assoc(Dressed(d, msgs[..n]), Dressed(d, front[n..]), d.dress(msgs[|msgs| - 1]));
    }
  }

  ghost predicate StreamOk(d: Dressing, w: Stream) {
    && w.taken <= |w.written|
    && |Dressed(d, w.written[..w.taken])| <= w.arrived <= |Dressed(d, w.written)|
  }

  /** What the reader holds: bytes that arrived and were not handed out as records. */
  function Buffer(d: Dressing, w: Stream): seq<Byte>
    requires w.taken <= |w.written|
    requires |Dressed(d, w.written[..w.taken])| <= w.arrived <= |Dressed(d, w.written)|
  {
    Dressed(d, w.written)[|Dressed(d, w.written[..w.taken])|..w.arrived]
  }

  /** The bytes from the next message on. */
  lemma NextMessage(d: Dressing, msgs: seq<Msg>, n: nat)
    requires n < |msgs|
    ensures Dressed(d, msgs[..n + 1]) == Dressed(d, msgs[..n]) + d.dress(msgs[n])
    ensures Dressed(d, msgs) == Dressed(d, msgs[..n]) + (d.dress(msgs[n]) + Dressed(d, msgs[n + 1..]))
  {
    assert msgs[..n + 1][..n] == msgs[..n];
    DressedSplit(d, msgs, n + 1);
    Assoc(Dressed(d, msgs[..n]), d.dress(msgs[n]), Dressed(d, msgs[n + 1..]));
  }

  /** However the bytes were cut into reads: a whole record in the buffer is the next message. */
  lemma BufferHead(g: Config, d: Dressing, w: Stream)
    requires Faithful(g, d) && StreamOk(d, w) && (w.taken < |w.written| ==> Carried(g, w.written[w.taken]))
    ensures Whole(Buffer(d, w)) ==>
              && w.taken < |w.written|
              && d.undress(Buffer(d, w)[..RecordLen(Buffer(d, w))]) == Some(w.written[w.taken])
              && StreamOk(d, w.(taken := w.taken + 1))
              && Buffer(d, w.(taken := w.taken + 1)) == Buffer(d, w)[RecordLen(Buffer(d, w))..]
    ensures w.taken < |w.written| && w.arrived == |Dressed(d, w.written)| ==> Whole(Buffer(d, w))
  {
    if w.taken < |w.written| {
      var m := w.written[w.taken];
      NextMessage(d, w.written, w.taken);
      var before, later := Dressed(d, w.written[..w.taken]), Dressed(d, w.written[w.taken + 1..]);
      BufferInside(before, d.dress(m), later, w.arrived);
      HeadOfBuffer(d.dress(m), later, Buffer(d, w));
    } else {
      assert w.written[..w.taken] == w.written;
      assert Buffer(d, w) == [];
    }
  }

  lemma BufferInside(before: seq<Byte>, record: seq<Byte>, later: seq<Byte>, arrived: nat)
    requires |before| <= arrived <= |before + (record + later)|
    ensures var buffer := (before + (record + later))[|before|..arrived];
            && buffer <= record + later
            && |buffer| == arrived - |before|
            && (|buffer| >= |record| ==>
                  && buffer[..|record|] == record
                  && buffer[|record|..] == (before + (record + later))[|before| + |record|..arrived])
  {
  }

  lemma HeadOfBuffer(record: seq<Byte>, later: seq<Byte>, buffer: seq<Byte>)
    requires Exact(record) && buffer <= record + later
    ensures Whole(buffer) <==> |buffer| >= |record|
    ensures Whole(buffer) ==> RecordLen(buffer) == |record|
  {
    if |buffer| >= HEADER {
      assert buffer[3] == record[3] && buffer[4] == record[4];
    }
  }

  // ── runs ───────────────────────────────────────────────────────────────────

  datatype State = State(c: ClientPc, cGot: seq<Msg>, s: ServerPc, sGot: seq<Msg>, up: Stream, down: Stream)

  const START := State(SayHello, [], WantHello, [], Stream([], 0, 0), Stream([], 0, 0))

  datatype Step =
    | ClientSays
    | ServerSays
    | ClientReads(to: nat)        // one socket read inside read_record
    | ServerReads(to: nat)
    | ClientTakesRecord
    | ServerTakesRecord
    | ClientSeesEof
    | ServerSeesEof
    | ServerTunnelRecord(n: U32)  // after the handshake: the keepalive's first PING, say
    | ClientTunnelRecord(n: U32)

  predicate ClientReading(s: State) { s.c.Want? || s.c == WantOk }

  predicate ServerReading(s: State) { s.s == WantHello || s.s == WantAuth }

  /** A socket read happens only when no complete record is buffered. */
  ghost predicate MayRead(d: Dressing, w: Stream, to: nat) {
    StreamOk(d, w) && !Whole(Buffer(d, w)) && w.arrived < to <= |Dressed(d, w.written)| && to <= w.arrived + READ_CHUNK
  }

  ghost predicate MayTake(d: Dressing, w: Stream) {
    StreamOk(d, w) && Whole(Buffer(d, w)) && d.undress(Buffer(d, w)[..RecordLen(Buffer(d, w))]).Some?
  }

  ghost predicate AtEof(d: Dressing, w: Stream) {
    StreamOk(d, w) && !Whole(Buffer(d, w)) && w.arrived == |Dressed(d, w.written)|
  }

  ghost predicate Enabled(g: Config, d: Dressing, s: State, x: Step) {
    match x
    case ClientSays =>
      || s.c == SayHello
      || (s.c == SayAuth && |s.cGot| == FLIGHT && ClientKey(g, s.cGot[0], ClientToServer).Some?)
    case ServerSays =>
      && |s.sGot| > 0 && s.sGot[0].ClientHello?
      && ((s.s.Say? && s.s.n < FLIGHT) || s.s == SayOk)
    case ClientReads(to) => ClientReading(s) && MayRead(d, s.down, to)
    case ServerReads(to) => ServerReading(s) && MayRead(d, s.up, to)
    case ClientTakesRecord => ClientReading(s) && MayTake(d, s.down)
    case ServerTakesRecord => ServerReading(s) && MayTake(d, s.up)
    case ClientSeesEof => ClientReading(s) && AtEof(d, s.down) && s.s == ServerFailed
    case ServerSeesEof => ServerReading(s) && AtEof(d, s.up) && s.c == ClientFailed
    case ServerTunnelRecord(_) => s.s == ServerDone && |s.sGot| > 0 && ServerKey(g, s.sGot[0], ServerToClient).Some?
    case ClientTunnelRecord(_) => s.c == ClientDone && |s.cGot| > 0 && ClientKey(g, s.cGot[0], ClientToServer).Some?
  }

  function Write(w: Stream, m: Msg): Stream {
    w.(written := w.written + [m])
  }

  ghost function Head(d: Dressing, w: Stream): Msg
    requires MayTake(d, w)
  {
    d.undress(Buffer(d, w)[..RecordLen(Buffer(d, w))]).value
  }

  ghost function Do(g: Config, d: Dressing, s: State, x: Step): State
    requires Enabled(g, d, s, x)
  {
    match x
    case ClientSays =>
      if s.c == SayHello then s.(c := Want(0), up := Write(s.up, HelloOf(g)))
      else
        s.(c := WantOk,
           up := Write(s.up, Sealed(ClientKey(g, s.cGot[0], ClientToServer).value,
                                    Auth(BuildAuth(g.proofBytes, g.device, g.password)))))
    case ServerSays =>
      if s.s.Say? then
        s.(s := if s.s.n + 1 < FLIGHT then Say(s.s.n + 1) else WantAuth,
           down := Write(s.down, FlightRecord(g, s.sGot[0], s.s.n)))
      else
        s.(s := ServerDone, down := Write(s.down, Sealed(ServerKey(g, s.sGot[0], ServerToClient).value, AuthOk)))
    case ClientReads(to) => s.(down := s.down.(arrived := to))
    case ServerReads(to) => s.(up := s.up.(arrived := to))
    case ClientTakesRecord =>
      var m := Head(d, s.down);
      s.(c := ClientTakes(g, s.c, s.cGot, m), cGot := s.cGot + [m], down := s.down.(taken := s.down.taken + 1))
    case ServerTakesRecord =>
      var m := Head(d, s.up);
      s.(s := ServerTakes(g, s.s, s.sGot, m), sGot := s.sGot + [m], up := s.up.(taken := s.up.taken + 1))
    case ClientSeesEof => s.(c := ClientFailed)
    case ServerSeesEof => s.(s := ServerFailed)
    case ServerTunnelRecord(n) =>
      s.(down := Write(s.down, Sealed(ServerKey(g, s.sGot[0], ServerToClient).value, TunnelFrame(n))))
    case ClientTunnelRecord(n) =>
      s.(up := Write(s.up, Sealed(ClientKey(g, s.cGot[0], ClientToServer).value, TunnelFrame(n))))
  }

  // ── what an honest run looks like ──────────────────────────────────────────

  predicate Follows(g: Config, up: seq<Msg>, down: seq<Msg>) {
    && (forall k :: 0 <= k < |up| && k < 2 ==> up[k] == UpScript(g, k))
    && (forall k :: 0 <= k < |down| && k <= OK_INDEX ==> down[k] == DownScript(g, k))
    && (forall k :: 0 <= k < |up| ==> Carried(g, up[k]))
    && (forall k :: 0 <= k < |down| ==> Carried(g, down[k]))
  }

  lemma FollowsUp(g: Config, up: seq<Msg>, down: seq<Msg>, m: Msg)
    requires Follows(g, up, down) && Carried(g, m) && (|up| < 2 ==> m == UpScript(g, |up|))
    ensures Follows(g, up + [m], down)
  {
  }

  lemma FollowsDown(g: Config, up: seq<Msg>, down: seq<Msg>, m: Msg)
    requires Follows(g, up, down) && Carried(g, m) && (|down| <= OK_INDEX ==> m == DownScript(g, |down|))
    ensures Follows(g, up, down + [m])
  {
  }

  predicate ClientPlace(g: Config, pc: ClientPc, got: nat, said: nat) {
    match pc
    case SayHello => got == 0 && said == 0
    case Want(n) => n < FLIGHT && got == n && said == 1
    case SayAuth => got == FLIGHT && said == 1 && PinMatches(g)
    case WantOk => got == FLIGHT && said == 2
    case ClientDone => got == FLIGHT + 1 && said >= 2
    case ClientFailed => !Matching(g) && said <= 2
  }

  predicate ServerPlace(g: Config, pc: ServerPc, got: nat, said: nat) {
    match pc
    case WantHello => got == 0 && said == 0
    case Say(n) => n < FLIGHT && got == 1 && said == n
    case WantAuth => got == 1 && said == FLIGHT
    case SayOk => got == 2 && said == FLIGHT && g.password == g.expected
    case ServerDone => got == 2 && said > FLIGHT && g.password == g.expected
    case ServerFailed => !Matching(g) && said <= FLIGHT
  }

  ghost predicate Inv(g: Config, d: Dressing, s: State) {
    && StreamOk(d, s.up) && StreamOk(d, s.down)
    && s.up.taken == |s.sGot| && s.sGot <= s.up.written
    && s.down.taken == |s.cGot| && s.cGot <= s.down.written
    && Follows(g, s.up.written, s.down.written)
    && ClientPlace(g, s.c, |s.cGot|, |s.up.written|)
    && ServerPlace(g, s.s, |s.sGot|, |s.down.written|)
    && (|s.up.written| >= 2 ==> PinMatches(g))
    && (s.s == SayOk || s.s == ServerDone ==> s.up.arrived == |Dressed(d, s.up.written[..2])|)
  }

  lemma StartInv(g: Config, d: Dressing)
    ensures Inv(g, d, START)
  {
    assert START.up.written[..0] == [];
  }

  /** Writing leaves the reader's side of the stream alone. */
  lemma WriteKeeps(d: Dressing, w: Stream, m: Msg)
    requires StreamOk(d, w)
    ensures StreamOk(d, Write(w, m))
    ensures forall n: nat :: n <= |w.written| ==> Write(w, m).written[..n] == w.written[..n]
  {
    assert (w.written + [m])[..|w.written|] == w.written;
    assert (w.written + [m])[..w.taken] == w.written[..w.taken];
    assert Dressed(d, w.written + [m]) == Dressed(d, w.written) + d.dress(m);
  }

  lemma ClientFollows(g: Config, pc: ClientPc, got: seq<Msg>, down: seq<Msg>)
    requires ConfigOk(g) && got <= down && |got| < |down| && Follows(g, [], down)
    requires (pc.Want? && pc.n == |got| < FLIGHT) || (pc == WantOk && |got| == FLIGHT)
    ensures ClientTakes(g, pc, got, down[|got|])
            == if pc == WantOk then ClientDone
               else if pc.n + 1 < FLIGHT then Want(pc.n + 1)
               else if PinMatches(g) then SayAuth else ClientFailed
  {
    KeysAgree(g, ServerToClient);
    assert down[|got|] == DownScript(g, |got|);
    if |got| > 0 {
      assert got[0] == DownScript(g, 0);
    }
    if |got| == 5 {
      assert got[2] == DownScript(g, 2) && got[3] == DownScript(g, 3);
    }
  }

  lemma ServerFollows(g: Config, pc: ServerPc, got: seq<Msg>, up: seq<Msg>)
    requires ConfigOk(g) && got <= up && |got| < |up| && Follows(g, up, [])
    requires (pc == WantHello && |got| == 0) || (pc == WantAuth && |got| == 1)
    ensures ServerTakes(g, pc, got, up[|got|])
            == if pc == WantHello then Say(0) else if g.password == g.expected then SayOk else ServerFailed
  {
    assert up[|got|] == UpScript(g, |got|);
    if pc == WantAuth {
      AuthRoundTrip(g.proofBytes, g.device, g.password, g.utf8);
      assert got[0] == UpScript(g, 0);
    }
  }

  /** The client's next record is the next of its script. */
  lemma ClientSaysScript(g: Config, d: Dressing, s: State)
    requires Inv(g, d, s) && Enabled(g, d, s, ClientSays)
    ensures |s.up.written| == (if s.c == SayHello then 0 else 1)
    ensures Do(g, d, s, ClientSays)
            == s.(c := if s.c == SayHello then Want(0) else WantOk, up := Write(s.up, UpScript(g, |s.up.written|)))
  {
    KeysAgree(g, ClientToServer);
    if s.c == SayAuth {
      assert s.cGot[0] == DownScript(g, 0);
    }
  }

  lemma InvClientSays(g: Config, d: Dressing, s: State)
    requires ConfigOk(g) && Inv(g, d, s) && Enabled(g, d, s, ClientSays)
    ensures Inv(g, d, Do(g, d, s, ClientSays))
  {
    ClientSaysScript(g, d, s);
    UpWritten(g, d, s, if s.c == SayHello then Want(0) else WantOk);
  }

  lemma UpWritten(g: Config, d: Dressing, s: State, pc: ClientPc)
    requires Inv(g, d, s) && |s.up.written| < 2
    requires ClientPlace(g, pc, |s.cGot|, |s.up.written| + 1) && (|s.up.written| == 1 ==> PinMatches(g))
    requires !(s.s == SayOk || s.s == ServerDone)
    ensures Inv(g, d, s.(c := pc, up := Write(s.up, UpScript(g, |s.up.written|))))
  {
    WriteKeeps(d, s.up, UpScript(g, |s.up.written|));
    FollowsUp(g, s.up.written, s.down.written, UpScript(g, |s.up.written|));
  }

  /** The server's next record is the next of the script. */
  lemma ServerSaysScript(g: Config, d: Dressing, s: State)
    requires Inv(g, d, s) && Enabled(g, d, s, ServerSays)
    ensures |s.down.written| <= OK_INDEX
    ensures Do(g, d, s, ServerSays).down == Write(s.down, DownScript(g, |s.down.written|))
  {
    assert s.sGot[0] == UpScript(g, 0);
  }

  lemma ScriptIsCarried(g: Config, n: nat)
    requires n <= OK_INDEX
    ensures Carried(g, DownScript(g, n))
  {
  }

  lemma InvServerSays(g: Config, d: Dressing, s: State)
    requires ConfigOk(g) && Inv(g, d, s) && Enabled(g, d, s, ServerSays)
    ensures Inv(g, d, Do(g, d, s, ServerSays))
  {
    ServerSaysScript(g, d, s);
    var m := DownScript(g, |s.down.written|);
    ScriptIsCarried(g, |s.down.written|);
    WriteKeeps(d, s.down, m);
    FollowsDown(g, s.up.written, s.down.written, m);
  }

  lemma InvReads(g: Config, d: Dressing, s: State, x: Step)
    requires Inv(g, d, s) && Enabled(g, d, s, x) && (x.ClientReads? || x.ServerReads?)
    ensures Inv(g, d, Do(g, d, s, x))
  {
  }

  /** Where the client goes with its next record. */
  function ClientNext(g: Config, pc: ClientPc): ClientPc {
    match pc
    case Want(n) => if n + 1 < FLIGHT then Want(n + 1) else if PinMatches(g) then SayAuth else ClientFailed
    case _ => ClientDone
  }

  /** What is handed out is the next message written. */
  lemma HeadIsNext(g: Config, d: Dressing, w: Stream)
    requires Faithful(g, d) && MayTake(d, w) && (w.taken < |w.written| ==> Carried(g, w.written[w.taken]))
    ensures w.taken < |w.written| && Head(d, w) == w.written[w.taken]
    ensures StreamOk(d, w.(taken := w.taken + 1))
  {
    BufferHead(g, d, w);
  }

  lemma ClientGoesOn(g: Config, d: Dressing, s: State)
    requires ConfigOk(g) && Inv(g, d, s) && ClientReading(s) && |s.cGot| < |s.down.written|
    ensures ClientTakes(g, s.c, s.cGot, s.down.written[|s.cGot|]) == ClientNext(g, s.c)
  {
    ClientFollows(g, s.c, s.cGot, s.down.written);
  }

  lemma ClientTakesResult(g: Config, d: Dressing, s: State)
    requires ConfigOk(g) && Faithful(g, d) && Inv(g, d, s) && Enabled(g, d, s, ClientTakesRecord)
    ensures |s.cGot| < |s.down.written| && StreamOk(d, s.down.(taken := s.down.taken + 1))
    ensures Do(g, d, s, ClientTakesRecord)
            == s.(c := ClientNext(g, s.c), cGot := s.cGot + [s.down.written[|s.cGot|]],
                  down := s.down.(taken := s.down.taken + 1))
  {
    HeadIsNext(g, d, s.down);
    ClientGoesOn(g, d, s);
  }

  lemma InvClientTakes(g: Config, d: Dressing, s: State)
    requires ConfigOk(g) && Faithful(g, d) && Inv(g, d, s) && Enabled(g, d, s, ClientTakesRecord)
    ensures Inv(g, d, Do(g, d, s, ClientTakesRecord))
  {
    ClientTakesResult(g, d, s);
    PrefixGrows(s.cGot, s.down.written);
  }

  lemma PrefixGrows(got: seq<Msg>, written: seq<Msg>)
    requires got <= written && |got| < |written|
    ensures got + [written[|got|]] <= written
  {
  }

  /** The server hands out the client's auth record only when nothing lies behind it. */
  lemma InvServerTakes(g: Config, d: Dressing, s: State)
    requires ConfigOk(g) && Faithful(g, d) && Inv(g, d, s) && Enabled(g, d, s, ServerTakesRecord)
    ensures Inv(g, d, Do(g, d, s, ServerTakesRecord))
  {
    HeadIsNext(g, d, s.up);
    ServerFollows(g, s.s, s.sGot, s.up.written);
    PrefixGrows(s.sGot, s.up.written);
    if s.s == WantAuth {
      assert |s.up.written| == 2 && s.up.written[..2] == s.up.written;
    }
  }

  lemma InvServerTunnel(g: Config, d: Dressing, s: State, n: U32)
    requires Inv(g, d, s) && Enabled(g, d, s, ServerTunnelRecord(n))
    ensures Inv(g, d, Do(g, d, s, ServerTunnelRecord(n)))
  {
    assert s.sGot[0] == UpScript(g, 0);
    var m := Sealed(SharedKey(g, ServerToClient), TunnelFrame(n));
    WriteKeeps(d, s.down, m);
    FollowsDown(g, s.up.written, s.down.written, m);
  }

  lemma InvClientTunnel(g: Config, d: Dressing, s: State, n: U32)
    requires Inv(g, d, s) && Enabled(g, d, s, ClientTunnelRecord(n))
    ensures Inv(g, d, Do(g, d, s, ClientTunnelRecord(n)))
  {
    assert s.cGot[0] == DownScript(g, 0);
    KeysAgree(g, ClientToServer);
    var m := Sealed(SharedKey(g, ClientToServer), TunnelFrame(n));
    WriteKeeps(d, s.up, m);
    FollowsUp(g, s.up.written, s.down.written, m);
  }

  /** A side that sees the end of the stream fails behind its peer. */
  lemma InvEof(g: Config, d: Dressing, s: State, x: Step)
    requires Inv(g, d, s) && Enabled(g, d, s, x) && (x.ClientSeesEof? || x.ServerSeesEof?)
    ensures Inv(g, d, Do(g, d, s, x))
  {
  }

  lemma InvStep(g: Config, d: Dressing, s: State, x: Step)
    requires ConfigOk(g) && Faithful(g, d) && Inv(g, d, s) && Enabled(g, d, s, x)
    ensures Inv(g, d, Do(g, d, s, x))
  {
    match x
    case ClientSays => InvClientSays(g, d, s);
    case ServerSays => InvServerSays(g, d, s);
    case ClientReads(_) => InvReads(g, d, s, x);
    case ServerReads(_) => InvReads(g, d, s, x);
    case ClientTakesRecord => InvClientTakes(g, d, s);
    case ServerTakesRecord => InvServerTakes(g, d, s);
    case ServerTunnelRecord(n) => InvServerTunnel(g, d, s, n);
    case ClientTunnelRecord(n) => InvClientTunnel(g, d, s, n);
    case ClientSeesEof => InvEof(g, d, s, x);
    case ServerSeesEof => InvEof(g, d, s, x);
  }

  // ── whole runs ─────────────────────────────────────────────────────────────

  ghost function Run(g: Config, d: Dressing, run: seq<Step>): Option<State> {
    if |run| == 0 then Some(START)
    else
      match Run(g, d, run[..|run| - 1])
      case None => None
      case Some(s) => if Enabled(g, d, s, run[|run| - 1]) then Some(Do(g, d, s, run[|run| - 1])) else None
  }

  lemma {:induction false} Always(g: Config, d: Dressing, run: seq<Step>)
    requires ConfigOk(g) && Faithful(g, d) && Run(g, d, run).Some?
    ensures Inv(g, d, Run(g, d, run).value)
  {
    if |run| == 0 {
      StartInv(g, d);
    } else {
      Always(g, d, run[..|run| - 1]);
      InvStep(g, d, Run(g, d, run[..|run| - 1]).value, run[|run| - 1]);
    }
  }

  /** The seven records of the server, in order. */
  predicate FullFlight(g: Config, got: seq<Msg>) {
    && |got| == 7 && got[0] == ServerHello(Ct(g.dk, g.coins), Pub(g.y))
    && got[1] == ChangeCipherSpec && got[2] == Certificate && got[3] == Finished && got[4] == Ticket
    && got[5].Sealed? && got[5].plain.Identity? && got[5].plain.static_ == Pub(g.identity)
    && got[6].Sealed? && got[6].plain == AuthOk && got[5].key == got[6].key && got[5].key.dir == ServerToClient
  }

  /** The two of the client. */
  predicate FullAuth(g: Config, got: seq<Msg>) {
    && |got| == 2 && got[0] == ClientHello(Pub(g.x), Ek(g.dk))
    && got[1].Sealed? && got[1].key.dir == ClientToServer
    && got[1].plain == Auth(g.proofBytes + [0] + g.device + g.password)
  }

  /** In every interleaving and with every cut of the bytes into reads: a side that finishes implies matching
      passwords and pin, a side that fails implies the opposite; two finished sides hold the same keys,
      crossed, and the same transcript. */
  lemma HandshakeOutcome(g: Config, d: Dressing, run: seq<Step>)
    requires ConfigOk(g) && Faithful(g, d) && Run(g, d, run).Some?
    ensures var s := Run(g, d, run).value;
            && (s.c == ClientDone || s.s == ServerDone ==> Matching(g))
            && (s.c == ClientFailed || s.s == ServerFailed ==> !Matching(g))
            && (s.s == ServerDone ==> FullAuth(g, s.sGot))
            && (s.c == ClientDone ==>
                  && s.s == ServerDone && |s.cGot| >= 4 && |s.sGot| > 0 && s.sGot[0].ClientHello?
                  && ClientTranscript(g, s.cGot) == ServerTranscript(g, s.sGot[0])
                  && FullFlight(g, s.cGot) && FullAuth(g, s.sGot)
                  && forall dir ::
                       && ClientKey(g, s.cGot[0], dir).Some?
                       && ClientKey(g, s.cGot[0], dir) == ServerKey(g, s.sGot[0], dir))
  {
    Always(g, d, run);
    var s := Run(g, d, run).value;
    if s.s == ServerDone {
      AuthIsFull(g, s.sGot, s.up.written, s.down.written);
    }
    if s.c == ClientDone {
      FlightIsFull(g, s.cGot, s.up.written, s.down.written);
      forall dir
        ensures ClientKey(g, s.cGot[0], dir).Some? && ClientKey(g, s.cGot[0], dir) == ServerKey(g, s.sGot[0], dir)
      {
        KeysAgree(g, dir);
      }
    }
  }

  lemma AuthIsFull(g: Config, got: seq<Msg>, up: seq<Msg>, down: seq<Msg>)
    requires Follows(g, up, down) && got <= up && |got| == 2
    ensures FullAuth(g, got)
  {
    assert got[0] == UpScript(g, 0) && got[1] == UpScript(g, 1);
  }

  lemma FlightIsFull(g: Config, got: seq<Msg>, up: seq<Msg>, down: seq<Msg>)
    requires Follows(g, up, down) && got <= down && |got| == 7
    ensures FullFlight(g, got) && got[0] == DownScript(g, 0)
    ensures ClientTranscript(g, got) == ServerTranscript(g, HelloOf(g))
  {
    assert got[0] == DownScript(g, 0) && got[1] == DownScript(g, 1) && got[2] == DownScript(g, 2);
    assert got[3] == DownScript(g, 3) && got[4] == DownScript(g, 4) && got[5] == DownScript(g, 5);
    assert got[6] == DownScript(g, 6);
  }

  /** A read that takes all there is, up to the size of the chunk buffer. */
  function NextRead(d: Dressing, w: Stream): nat {
    if |Dressed(d, w.written)| <= w.arrived + READ_CHUNK then |Dressed(d, w.written)| else w.arrived + READ_CHUNK
  }

  /** One side is waiting for a record the other has written: it can read or take it. */
  lemma ReaderMoves(g: Config, d: Dressing, w: Stream) returns (read: bool)
    requires Faithful(g, d) && StreamOk(d, w) && w.taken < |w.written| && Carried(g, w.written[w.taken])
    ensures if read then MayRead(d, w, NextRead(d, w)) else MayTake(d, w)
  {
    BufferHead(g, d, w);
    read := !Whole(Buffer(d, w));
  }

  lemma AllRead(g: Config, d: Dressing, w: Stream)
    requires Faithful(g, d) && StreamOk(d, w) && w.taken == |w.written|
    ensures AtEof(d, w)
  {
    BufferHead(g, d, w);
    assert w.written[..w.taken] == w.written;
  }

  /** A side that has something to write can write it. */
  lemma WriterMoves(g: Config, d: Dressing, s: State) returns (x: Step)
    requires Inv(g, d, s) && (s.s.Say? || s.s == SayOk || s.c == SayHello || s.c == SayAuth)
    ensures Enabled(g, d, s, x) && HandshakeStep(x)
  {
    KeysAgree(g, ClientToServer);
    if s.s.Say? || s.s == SayOk {
      assert s.sGot[0] == UpScript(g, 0);
      x := ServerSays;
    } else {
      if s.c == SayAuth { assert s.cGot[0] == DownScript(g, 0); }
      x := ClientSays;
    }
  }

  /** A side that waits for a record the other has written can read on or take it. */
  lemma WaiterMoves(g: Config, d: Dressing, s: State) returns (x: Step)
    requires Faithful(g, d) && Inv(g, d, s)
    requires (ClientReading(s) && s.down.taken < |s.down.written|) || (ServerReading(s) && s.up.taken < |s.up.written|)
    ensures Enabled(g, d, s, x) && HandshakeStep(x)
  {
    if ClientReading(s) && s.down.taken < |s.down.written| {
      var read := ReaderMoves(g, d, s.down);
      x := if read then ClientReads(NextRead(d, s.down)) else ClientTakesRecord;
    } else {
      var read := ReaderMoves(g, d, s.up);
      x := if read then ServerReads(NextRead(d, s.up)) else ServerTakesRecord;
    }
  }

  /** If nothing is left to write or to take, one side has failed and the other sees the end of its stream. */
  lemma LeftAloneMoves(g: Config, d: Dressing, s: State) returns (x: Step)
    requires Faithful(g, d) && Inv(g, d, s) && !BothEnded(s)
    requires !(s.s.Say? || s.s == SayOk || s.c == SayHello || s.c == SayAuth)
    requires ClientReading(s) ==> s.down.taken >= |s.down.written|
    requires ServerReading(s) ==> s.up.taken >= |s.up.written|
    ensures Enabled(g, d, s, x) && HandshakeStep(x)
  {
    if ClientReading(s) {
      AllRead(g, d, s.down);
      x := ClientSeesEof;
    } else {
      AllRead(g, d, s.up);
      x := ServerSeesEof;
    }
  }

  predicate HandshakeStep(x: Step) {
    !x.ServerTunnelRecord? && !x.ClientTunnelRecord?
  }

  predicate BothEnded(s: State) {
    (s.c == ClientDone || s.c == ClientFailed) && (s.s == ServerDone || s.s == ServerFailed)
  }

  /** No deadlock: until both sides have finished or failed, one of them has a step to take. */
  lemma NoDeadlock(g: Config, d: Dressing, run: seq<Step>) returns (x: Step)
    requires ConfigOk(g) && Faithful(g, d) && Run(g, d, run).Some? && !BothEnded(Run(g, d, run).value)
    ensures Enabled(g, d, Run(g, d, run).value, x) && HandshakeStep(x)
  {
    Always(g, d, run);
    var s := Run(g, d, run).value;
    if s.s.Say? || s.s == SayOk || s.c == SayHello || s.c == SayAuth {
      x := WriterMoves(g, d, s);
    } else if (ClientReading(s) && s.down.taken < |s.down.written|)
              || (ServerReading(s) && s.up.taken < |s.up.written|) {
      x := WaiterMoves(g, d, s);
    } else {
      x := LeftAloneMoves(g, d, s);
    }
  }

  // ── every handshake comes to an end ────────────────────────────────────────

  /** What is left of each side's script. */
  function ClientLeft(pc: ClientPc): nat {
    match pc
    case SayHello => FLIGHT + 3
    case Want(n) => if n < FLIGHT then FLIGHT + 2 - n else 1
    case SayAuth => 2
    case WantOk => 1
    case _ => 0
  }

  function ServerLeft(pc: ServerPc): nat {
    match pc
    case WantHello => FLIGHT + 3
    case Say(n) => if n < FLIGHT then FLIGHT + 2 - n else 1
    case WantAuth => 2
    case SayOk => 1
    case _ => 0
  }

  function Left(s: State): nat {
    ClientLeft(s.c) + ServerLeft(s.s)
  }

  /** Bytes written and not yet read off the sockets. */
  ghost function Unread(d: Dressing, s: State): nat {
    if StreamOk(d, s.up) && StreamOk(d, s.down)
    then |Dressed(d, s.up.written)| - s.up.arrived + |Dressed(d, s.down.written)| - s.down.arrived
    else 0
  }

  ghost predicate LessLeft(d: Dressing, s: State, s': State) {
    Left(s') < Left(s) || (Left(s') == Left(s) && Unread(d, s') < Unread(d, s))
  }

  /** Every step of the handshake uses up a piece of a script, or bytes that were to be read. */
  lemma StepUses(g: Config, d: Dressing, s: State, x: Step)
    requires StreamOk(d, s.up) && StreamOk(d, s.down) && Enabled(g, d, s, x) && HandshakeStep(x)
    requires StreamOk(d, Do(g, d, s, x).up) && StreamOk(d, Do(g, d, s, x).down)
    ensures LessLeft(d, s, Do(g, d, s, x))
  {
  }

  lemma OnlyOkFinishes(g: Config, d: Dressing, s: State, x: Step)
    requires Enabled(g, d, s, x)
    ensures Do(g, d, s, x).s == ServerDone ==> s.s == SayOk || s.s == ServerDone
  {
  }

  lemma StreamsOk(g: Config, d: Dressing, run: seq<Step>, s: State)
    requires ConfigOk(g) && Faithful(g, d) && Run(g, d, run) == Some(s)
    ensures StreamOk(d, s.up) && StreamOk(d, s.down)
  {
    Always(g, d, run);
  }

  lemma NextState(g: Config, d: Dressing, run: seq<Step>, s: State) returns (x: Step, s': State)
    requires ConfigOk(g) && Faithful(g, d) && Run(g, d, run) == Some(s) && !BothEnded(s)
    ensures Run(g, d, run + [x]) == Some(s') && LessLeft(d, s, s')
    ensures s'.s == ServerDone ==> s.s == SayOk || s.s == ServerDone
  {
    x := NoDeadlock(g, d, run);
    s' := Extend(g, d, run, s, x);
    StreamsOk(g, d, run, s);
    StreamsOk(g, d, run + [x], s');
    StepUses(g, d, s, x);
    OnlyOkFinishes(g, d, s, x);
  }

  /** Both sides have done what they came for, or neither has. */
  predicate EndsWell(g: Config, s: State) {
    if Matching(g) then s.c == ClientDone && s.s == ServerDone else s.c == ClientFailed && s.s == ServerFailed
  }

  /** Whatever has happened so far, the handshake can be run to its end, and there both sides are done if the
      passwords match and the pin fits, and both have failed otherwise. */
  lemma {:induction false} HandshakeEnds(g: Config, d: Dressing, run: seq<Step>, s: State)
    returns (more: seq<Step>, end: State)
    requires ConfigOk(g) && Faithful(g, d) && Run(g, d, run) == Some(s)
    ensures Run(g, d, run + more) == Some(end) && EndsWell(g, end)
    decreases Left(s), Unread(d, s)
  {
    if BothEnded(s) {
      HandshakeOutcome(g, d, run);
      more, end := [], s;
      assert run + more == run;
    } else {
      var x, s' := NextState(g, d, run, s);
      more, end := HandshakeEnds(g, d, run + [x], s');
      Assoc(run, [x], more);
      more := [x] + more;
    }
  }

  /** On its way there a matching handshake passes through the server's OK. */
  lemma {:induction false} OkIsReached(g: Config, d: Dressing, run: seq<Step>, s: State)
    returns (more: seq<Step>, ok: State)
    requires ConfigOk(g) && Faithful(g, d) && Matching(g) && Run(g, d, run) == Some(s) && s.s != ServerDone
    ensures Run(g, d, run + more) == Some(ok) && ok.s == SayOk
    decreases Left(s), Unread(d, s)
  {
    if s.s == SayOk {
      more, ok := [], s;
      assert run + more == run;
    } else {
      HandshakeOutcome(g, d, run);
      var x, s' := NextState(g, d, run, s);
      more, ok := OkIsReached(g, d, run + [x], s');
      Assoc(run, [x], more);
      more := [x] + more;
    }
  }

  // ── the handover to the tunnel ─────────────────────────────────────────────

  /** When the server returns, its dropped RecordReader holds nothing, and no tunnel record was pulled off the
      socket: the tunnel's reader starts exactly behind the client's auth record. */
  lemma ServerHandover(g: Config, d: Dressing, run: seq<Step>)
    requires ConfigOk(g) && Faithful(g, d) && Run(g, d, run).Some?
    requires Run(g, d, run).value.s == ServerDone
    ensures var w := Run(g, d, run).value.up;
            && StreamOk(d, w) && |w.written| >= 2
            && Buffer(d, w) == [] && Dressed(d, w.written)[w.arrived..] == Dressed(d, w.written[2..])
  {
    Always(g, d, run);
    var w := Run(g, d, run).value.up;
    DressedSplit(d, w.written, 2);
  }

  /** A client that is done has taken exactly the server's flight and the OK. */
  lemma DoneBehindOk(g: Config, d: Dressing, run: seq<Step>)
    requires ConfigOk(g) && Faithful(g, d) && Run(g, d, run).Some?
    requires Run(g, d, run).value.c == ClientDone
    ensures StreamOk(d, Run(g, d, run).value.down) && Run(g, d, run).value.down.taken == FLIGHT + 1
  {
    Always(g, d, run);
  }

  /** What lies behind the records handed out is the buffer and what has not arrived. */
  lemma BufferThenRest(d: Dressing, w: Stream)
    requires StreamOk(d, w)
    ensures Dressed(d, w.written[w.taken..]) == Buffer(d, w) + Dressed(d, w.written)[w.arrived..]
  {
    DressedSplit(d, w.written, w.taken);
  }

  /** On the client the handover is clean exactly when nothing lies behind the OK in the dropped reader: the
      bytes the tunnel's reader gets to see are those of the server's tunnel records if and only if the
      buffer is empty, and what is missing from them is the buffer. */
  lemma ClientHandover(g: Config, d: Dressing, run: seq<Step>)
    requires ConfigOk(g) && Faithful(g, d) && Run(g, d, run).Some?
    requires Run(g, d, run).value.c == ClientDone
    ensures var w := Run(g, d, run).value.down;
            && StreamOk(d, w) && |w.written| >= FLIGHT + 1
            && Dressed(d, w.written[FLIGHT + 1..]) == Buffer(d, w) + Dressed(d, w.written)[w.arrived..]
            && (Dressed(d, w.written)[w.arrived..] == Dressed(d, w.written[FLIGHT + 1..]) <==> Buffer(d, w) == [])
  {
    DoneBehindOk(g, d, run);
    BufferThenRest(d, Run(g, d, run).value.down);
  }

  // ── how far a reader reads ahead ───────────────────────────────────────────

  /** Everything behind the record the reader waits for, or all it holds, came with one read. */
  ghost predicate OneReadAhead(d: Dressing, w: Stream) {
    StreamOk(d, w) ==>
      || |Buffer(d, w)| < READ_CHUNK
      || (w.taken < |w.written| && w.arrived < |Dressed(d, w.written[..w.taken + 1])| + READ_CHUNK)
  }

  lemma ReadIsOfNext(d: Dressing, w: Stream, to: nat)
    requires MayRead(d, w, to)
    ensures w.taken < |w.written|
  {
    TakeAll(w.written, w.taken);
  }

  lemma TakeAll(msgs: seq<Msg>, n: nat)
    requires n <= |msgs|
    ensures n == |msgs| ==> msgs[..n] == msgs
  {
  }

  lemma AheadRead(g: Config, d: Dressing, w: Stream, to: nat)
    requires Faithful(g, d) && MayRead(d, w, to) && (w.taken < |w.written| ==> Carried(g, w.written[w.taken]))
    ensures OneReadAhead(d, w.(arrived := to))
  {
    ReadIsOfNext(d, w, to);
    var m := w.written[w.taken];
    NextMessage(d, w.written, w.taken);
    var before, later := Dressed(d, w.written[..w.taken]), Dressed(d, w.written[w.taken + 1..]);
    BufferInside(before, d.dress(m), later, w.arrived);
    HeadOfBuffer(d.dress(m), later, Buffer(d, w));
  }

  lemma AheadTake(g: Config, d: Dressing, w: Stream)
    requires Faithful(g, d) && OneReadAhead(d, w) && MayTake(d, w)
    requires w.taken < |w.written| ==> Carried(g, w.written[w.taken])
    ensures w.taken < |w.written| && StreamOk(d, w.(taken := w.taken + 1))
    ensures |Buffer(d, w.(taken := w.taken + 1))| < READ_CHUNK
  {
    BufferHead(g, d, w);
    NextMessage(d, w.written, w.taken);
  }

  lemma AheadWrite(d: Dressing, w: Stream, m: Msg)
    requires StreamOk(d, w) && OneReadAhead(d, w)
    ensures OneReadAhead(d, Write(w, m)) && StreamOk(d, Write(w, m)) && Buffer(d, Write(w, m)) == Buffer(d, w)
  {
    WriteKeeps(d, w, m);
    assert Dressed(d, w.written + [m]) == Dressed(d, w.written) + d.dress(m) by {
      assert (w.written + [m])[..|w.written|] == w.written;
    }
  }

  ghost predicate Ahead(d: Dressing, s: State) {
    && OneReadAhead(d, s.up) && OneReadAhead(d, s.down)
    && (s.c == ClientDone && StreamOk(d, s.down) ==> |Buffer(d, s.down)| < READ_CHUNK)
  }

  lemma AheadUpWritten(d: Dressing, s: State, m: Msg, pc: ClientPc)
    requires Ahead(d, s) && StreamOk(d, s.up) && (pc == ClientDone ==> s.c == ClientDone)
    ensures Ahead(d, s.(c := pc, up := Write(s.up, m)))
  {
    AheadWrite(d, s.up, m);
  }

  lemma AheadDownWritten(d: Dressing, s: State, m: Msg, pc: ServerPc)
    requires Ahead(d, s) && StreamOk(d, s.down)
    ensures Ahead(d, s.(s := pc, down := Write(s.down, m)))
  {
    AheadWrite(d, s.down, m);
  }

  lemma AheadSays(g: Config, d: Dressing, s: State, x: Step)
    requires StreamOk(d, s.up) && StreamOk(d, s.down) && Ahead(d, s) && Enabled(g, d, s, x)
    requires x.ClientSays? || x.ServerSays? || x.ServerTunnelRecord? || x.ClientTunnelRecord?
    ensures Ahead(d, Do(g, d, s, x))
  {
    var s' := Do(g, d, s, x);
    if x.ClientSays? || x.ClientTunnelRecord? {
      AheadUpWritten(d, s, s'.up.written[|s.up.written|], s'.c);
    } else {
      AheadDownWritten(d, s, s'.down.written[|s.down.written|], s'.s);
    }
  }

  lemma AheadTakes(g: Config, d: Dressing, s: State, x: Step)
    requires Faithful(g, d) && Inv(g, d, s) && Ahead(d, s) && Enabled(g, d, s, x)
    requires x.ClientTakesRecord? || x.ServerTakesRecord?
    ensures Ahead(d, Do(g, d, s, x))
  {
    if x.ClientTakesRecord? { AheadTake(g, d, s.down); } else { AheadTake(g, d, s.up); }
  }

  lemma AheadReads(g: Config, d: Dressing, s: State, x: Step)
    requires Faithful(g, d) && Inv(g, d, s) && Ahead(d, s) && Enabled(g, d, s, x)
    requires x.ClientReads? || x.ServerReads?
    ensures Ahead(d, Do(g, d, s, x))
  {
    if x.ClientReads? { AheadRead(g, d, s.down, x.to); } else { AheadRead(g, d, s.up, x.to); }
  }

  lemma AheadStep(g: Config, d: Dressing, s: State, x: Step)
    requires Faithful(g, d) && Inv(g, d, s) && Ahead(d, s) && Enabled(g, d, s, x)
    ensures Ahead(d, Do(g, d, s, x))
  {
    if x.ClientReads? || x.ServerReads? {
      AheadReads(g, d, s, x);
    } else if x.ClientTakesRecord? || x.ServerTakesRecord? {
      AheadTakes(g, d, s, x);
    } else if !x.ClientSeesEof? && !x.ServerSeesEof? {
      AheadSays(g, d, s, x);
    }
  }

  lemma {:induction false} AlwaysAhead(g: Config, d: Dressing, run: seq<Step>)
    requires ConfigOk(g) && Faithful(g, d) && Run(g, d, run).Some?
    ensures Ahead(d, Run(g, d, run).value)
  {
    if |run| > 0 {
      AlwaysAhead(g, d, run[..|run| - 1]);
      Always(g, d, run[..|run| - 1]);
      AheadStep(g, d, Run(g, d, run[..|run| - 1]).value, run[|run| - 1]);
    }
  }

  /** What the client can lose at the handover is less than one read of 16384 bytes. */
  lemma LossIsOneRead(g: Config, d: Dressing, run: seq<Step>)
    requires ConfigOk(g) && Faithful(g, d) && Run(g, d, run).Some?
    requires Run(g, d, run).value.c == ClientDone
    ensures StreamOk(d, Run(g, d, run).value.down) && |Buffer(d, Run(g, d, run).value.down)| < 16384
  {
    AlwaysAhead(g, d, run);
    DoneBehindOk(g, d, run);
  }

  /** The server has said OK and the client has not taken it yet. */
  ghost predicate OkUnread(d: Dressing, s: State) {
    && s.s == ServerDone && s.c == WantOk && |s.down.written| == FLIGHT + 1
    && StreamOk(d, s.down) && !Whole(Buffer(d, s.down))
  }

  function PingRecord(g: Config, n: U32): Msg {
    Sealed(SharedKey(g, ServerToClient), TunnelFrame(n))
  }

  /** A PING goes out behind the OK. */
  lemma PingGoesOut(g: Config, d: Dressing, s: State, n: U32)
    requires Faithful(g, d) && Inv(g, d, s) && OkUnread(d, s)
    requires |Dressed(d, s.down.written + [PingRecord(g, n)])| <= s.down.arrived + READ_CHUNK
    ensures Enabled(g, d, s, ServerTunnelRecord(n))
    ensures var s' := Do(g, d, s, ServerTunnelRecord(n));
            && s' == s.(down := Write(s.down, PingRecord(g, n)))
            && Enabled(g, d, s', ClientReads(|Dressed(d, s'.down.written)|))
  {
    assert s.sGot[0] == UpScript(g, 0);
    PartBeforeAll(g, d, s.down, PingRecord(g, n));
  }

  /** The OK and one record behind it have arrived: taking the OK leaves that record in the buffer. */
  lemma OneRecordBehind(g: Config, d: Dressing, w: Stream)
    requires Faithful(g, d) && StreamOk(d, w) && w.taken + 2 == |w.written| && w.arrived == |Dressed(d, w.written)|
    requires Carried(g, w.written[w.taken])
    ensures MayTake(d, w) && StreamOk(d, w.(taken := w.taken + 1))
    ensures Buffer(d, w.(taken := w.taken + 1)) == d.dress(w.written[w.taken + 1])
  {
    BufferHead(g, d, w);
    NextMessage(d, w.written, w.taken + 1);
    assert Dressed(d, w.written[w.taken + 2..]) == [];
  }

  /** The dropped RecordReader holds the PING, and the tunnel's reader will never see it. */
  ghost predicate PingLost(g: Config, d: Dressing, s: State, n: U32) {
    && s.c == ClientDone && StreamOk(d, s.down)
    && Buffer(d, s.down) == d.dress(PingRecord(g, n))
    && Dressed(d, s.down.written)[s.down.arrived..] == []
  }

  /** One read has pulled in both, and the client takes the OK. */
  lemma OkIsTaken(g: Config, d: Dressing, s: State, n: U32)
    requires ConfigOk(g) && Faithful(g, d) && Inv(g, d, s) && s.c == WantOk && |s.down.written| == FLIGHT + 2
    requires s.down.written[FLIGHT + 1] == PingRecord(g, n) && s.down.arrived == |Dressed(d, s.down.written)|
    ensures Enabled(g, d, s, ClientTakesRecord) && PingLost(g, d, Do(g, d, s, ClientTakesRecord), n)
  {
    OneRecordBehind(g, d, s.down);
    ClientTakesResult(g, d, s);
  }

  /** The state after one read has pulled in the OK and the PING behind it. */
  function PingBuffered(g: Config, d: Dressing, s: State, n: U32): State {
    var w := Write(s.down, PingRecord(g, n));
    s.(down := w.(arrived := |Dressed(d, w.written)|))
  }

  lemma PingIsPulledIn(g: Config, d: Dressing, run: seq<Step>, s: State, n: U32) returns (more: seq<Step>)
    requires Faithful(g, d) && Run(g, d, run) == Some(s) && Inv(g, d, s) && OkUnread(d, s)
    requires |Dressed(d, s.down.written + [PingRecord(g, n)])| <= s.down.arrived + READ_CHUNK
    ensures Run(g, d, run + more) == Some(PingBuffered(g, d, s, n))
  {
    PingGoesOut(g, d, s, n);
    var s1 := Extend(g, d, run, s, ServerTunnelRecord(n));
    var x := ClientReads(|Dressed(d, s1.down.written)|);
    var s2 := Extend(g, d, run + [ServerTunnelRecord(n)], s1, x);
    more := [ServerTunnelRecord(n), x];
    assert run + more == run + [ServerTunnelRecord(n)] + [x];
  }

  lemma LosesPing(g: Config, d: Dressing, run: seq<Step>, s: State, n: U32)
    requires ConfigOk(g) && Faithful(g, d) && Run(g, d, run) == Some(s) && s.c == WantOk
    requires |s.down.written| == FLIGHT + 2 && s.down.written[FLIGHT + 1] == PingRecord(g, n)
    requires s.down.arrived == |Dressed(d, s.down.written)|
    ensures Run(g, d, run + [ClientTakesRecord]).Some?
    ensures PingLost(g, d, Run(g, d, run + [ClientTakesRecord]).value, n)
  {
    Always(g, d, run);
    OkIsTaken(g, d, s, n);
    var s' := Extend(g, d, run, s, ClientTakesRecord);
  }

  /** And it need not be: whenever the server has said OK and the client has not taken it yet, a PING written
      at once (the keepalive ticks immediately) can be pulled in behind the OK by the same read, and is then
      lost with the dropped reader. */
  lemma PingCanBeLost(g: Config, d: Dressing, run: seq<Step>, n: U32) returns (more: seq<Step>)
    requires ConfigOk(g) && Faithful(g, d) && Run(g, d, run).Some?
    requires var s := Run(g, d, run).value;
             OkUnread(d, s) && |Dressed(d, s.down.written + [PingRecord(g, n)])| <= s.down.arrived + 16384
    ensures Run(g, d, run + more).Some? && PingLost(g, d, Run(g, d, run + more).value, n)
  {
    Always(g, d, run);
    var s := Run(g, d, run).value;
    var two := PingIsPulledIn(g, d, run, s, n);
    LosesPing(g, d, run + two, PingBuffered(g, d, s, n), n);
    more := two + [ClientTakesRecord];
    assert run + more == run + two + [ClientTakesRecord];
  }

  /** When the server says OK, the client waits for it and has read all that was written before. */
  lemma OkGoesOut(g: Config, d: Dressing, s: State)
    requires ConfigOk(g) && Matching(g) && Inv(g, d, s) && s.s == SayOk
    ensures Enabled(g, d, s, ServerSays) && OkUnread(d, Do(g, d, s, ServerSays))
    ensures var w := Do(g, d, s, ServerSays).down;
            && w.written[..FLIGHT] + [DownScript(g, OK_INDEX)] == w.written
            && w.arrived == |Dressed(d, w.written[..FLIGHT])|
  {
    ServerSaysScript(g, d, s);
    WriteKeeps(d, s.down, DownScript(g, OK_INDEX));
    assert s.down.written[..FLIGHT] == s.down.written;
  }

  /** So with every matching configuration some run loses the first PING, provided one read can hold the OK
      and the PING. */
  lemma SomeRunLosesPing(g: Config, d: Dressing, n: U32) returns (run: seq<Step>)
    requires ConfigOk(g) && Faithful(g, d) && Matching(g)
    requires |d.dress(DownScript(g, OK_INDEX))| + |d.dress(PingRecord(g, n))| <= 16384
    ensures Run(g, d, run).Some? && PingLost(g, d, Run(g, d, run).value, n)
  {
    var ok, s := OkIsReached(g, d, [], START);
    run := ok;
    assert [] + run == run;
    Always(g, d, run);
    OkGoesOut(g, d, s);
    var s' := Extend(g, d, run, s, ServerSays);
    TwoRecords(d, s'.down.written, DownScript(g, OK_INDEX), PingRecord(g, n));
    var more := PingCanBeLost(g, d, run + [ServerSays], n);
    run := run + [ServerSays] + more;
  }

  lemma TwoRecords(d: Dressing, written: seq<Msg>, m: Msg, m': Msg)
    requires |written| == FLIGHT + 1 && written[..FLIGHT] + [m] == written
    ensures |Dressed(d, written + [m'])| == |Dressed(d, written[..FLIGHT])| + |d.dress(m)| + |d.dress(m')|
  {
    assert (written + [m'])[..FLIGHT + 1] == written && written[FLIGHT] == m;
  }

  lemma Extend(g: Config, d: Dressing, run: seq<Step>, s: State, x: Step) returns (s': State)
    requires Run(g, d, run) == Some(s) && Enabled(g, d, s, x)
    ensures Run(g, d, run + [x]) == Some(s') && s' == Do(g, d, s, x)
  {
    assert (run + [x])[..|run|] == run;
    s' := Do(g, d, s, x);
  }

  /** More bytes behind an incomplete record leave it incomplete. */
  lemma PartBeforeAll(g: Config, d: Dressing, w: Stream, m: Msg)
    requires Faithful(g, d) && StreamOk(d, w) && Carried(g, m)
    ensures StreamOk(d, Write(w, m)) && Buffer(d, Write(w, m)) == Buffer(d, w)
    ensures w.arrived < |Dressed(d, w.written + [m])|
  {
    WriteKeeps(d, w, m);
    assert (w.written + [m])[..|w.written|] == w.written;
    assert Dressed(d, w.written + [m]) == Dressed(d, w.written) + d.dress(m);
    assert Exact(d.dress(m));
  }
}
