/** Announcements between servers: lists of ID payloads, of channel payloads and
    of channel users with their modes, as the encoders write them
    (apps/silcd/server.c) and the list decoders take them apart
    (apps/silcd/packet_receive.c, server.c).  The layouts are those of the ID
    Payload and the Channel Payload in draft-riikonen-silc-pp, sections 2.3.2.1
    and 2.3.2.4; numbers are written most significant byte first. */
module AnnounceCodec {
  import opened Wire

  newtype byte = n: int | 0 <= n < 256

  function U16(n: nat): (b: seq<byte>)
    requires n < 0x1_0000
    ensures |b| == 2
  {
    [(n / 256) as byte, (n % 256) as byte]
  }

  function Get16(b: seq<byte>, at: nat): (n: nat)
    requires at + 2 <= |b|
    ensures n < 0x1_0000
  {
    b[at] as int * 256 + b[at + 1] as int
  }

  function U32(n: nat): (b: seq<byte>)
    requires n < 0x1_0000_0000
    ensures |b| == 4
  {
    U16(n / 0x1_0000) + U16(n % 0x1_0000)
  }

  function Get32(b: seq<byte>, at: nat): (n: nat)
    requires at + 4 <= |b|
  {
    Get16(b, at) * 0x1_0000 + Get16(b, at + 2)
  }

  lemma RoundTrip16(n: nat, before: seq<byte>, after: seq<byte>)
    requires n < 0x1_0000
    ensures Get16(before + U16(n) + after, |before|) == n
  {
  }

  lemma RoundTrip32(n: nat, before: seq<byte>, after: seq<byte>)
    requires n < 0x1_0000_0000
    ensures Get32(before + U32(n) + after, |before|) == n
  {
    var b := before + U32(n) + after;
    var hi, lo := U16(n / 0x1_0000), U16(n % 0x1_0000);
    assert b == before + hi + (lo + after) && b == (before + hi) + lo + after;
    RoundTrip16(n / 0x1_0000, before, lo + after);
    RoundTrip16(n % 0x1_0000, before + hi, after);
  }

  lemma Front32(n: nat, after: seq<byte>)
    requires n < 0x1_0000_0000
    ensures Get32(U32(n) + after, 0) == n && (U32(n) + after)[4..] == after
  {
    RoundTrip32(n, [], after);
    hide U32, Get32;
    assert [] + U32(n) + after == U32(n) + after;
  }

  // -------------------------------------------------------------- ID payloads

  /** The longest ID is a Client ID with an IPv6 address. */
  const MAX_ID := 28
  const ID_BUFFER := 256

  datatype Id = Id(kind: nat, value: seq<byte>)

  predicate ProperId(x: Id) {
    x.kind < 0x1_0000 && |x.value| <= MAX_ID
  }

  function EncodeId(x: Id): (b: seq<byte>)
    requires ProperId(x)
    ensures |b| == 4 + |x.value|
  {
    U16(x.kind) + U16(|x.value|) + x.value
  }

  /** The payload byte by byte, numbers most significant byte first. */
  lemma IdBytes(x: Id)
    requires ProperId(x)
    ensures var b := EncodeId(x);
      && |b| == 4 + |x.value|
      && b[0] as int * 256 + b[1] as int == x.kind
      && b[2] == 0 && b[3] as int == |x.value|
      && forall i :: 0 <= i < |x.value| ==> b[4 + i] == x.value[i]
  {
    var b := EncodeId(x);
    assert b[..2] == U16(x.kind) && b[2..4] == U16(|x.value|) && b[4..] == x.value;
    assert b[0] == b[..2][0] && b[1] == b[..2][1] && b[2] == b[2..4][0] && b[3] == b[2..4][1];
  }

  /** One payload taken off the front: the payload, its parts, and what follows. */
  datatype Taken<T> = Taken(item: T, rest: seq<byte>) | Nothing

  /** A turn of the loop in silc_server_new_id_list. */
  function TakeId(b: seq<byte>): (t: Taken<Id>)
    ensures t.Taken? ==> |t.rest| < |b|
  {
    if |b| < 4 then Nothing
    else
      var n := Get16(b, 2);
      if n > |b| || n > ID_BUFFER || 4 + n > |b| then Nothing
      else Taken(Id(Get16(b, 0), b[4..4 + n]), b[4 + n..])
  }

  lemma TakeIdBack(x: Id, rest: seq<byte>)
    requires ProperId(x)
    ensures TakeId(EncodeId(x) + rest) == Taken(x, rest)
  {
    var b := EncodeId(x) + rest;
    var n := |x.value|;
    assert b == [] + U16(x.kind) + (U16(n) + x.value + rest);
    assert b == U16(x.kind) + U16(n) + (x.value + rest);
    RoundTrip16(x.kind, [], U16(n) + x.value + rest);
    RoundTrip16(n, U16(x.kind), x.value + rest);
    assert b[4..4 + n] == x.value && b[4 + n..] == rest;
  }

  // --------------------------------------------------------- channel payloads

  const MAX_NAME := 256
  const CHANNEL_BUFFER := 512

  datatype Channel = Channel(name: seq<byte>, id: seq<byte>, mode: nat)

  predicate ProperChannel(x: Channel) {
    |x.name| <= MAX_NAME && |x.id| <= MAX_ID && x.mode < 0x1_0000_0000
  }

  function EncodeChannel(x: Channel): (b: seq<byte>)
    requires ProperChannel(x)
    ensures |b| == 8 + |x.name| + |x.id|
  {
    U16(|x.name|) + x.name + U16(|x.id|) + x.id + U32(x.mode)
  }

  lemma U32Bytes(n: nat)
    requires n < 0x1_0000_0000
    ensures var b := U32(n);
      b[0] as int * 0x100_0000 + b[1] as int * 0x1_0000 + b[2] as int * 0x100 + b[3] as int == n
  {
    var hi, lo := U16(n / 0x1_0000), U16(n % 0x1_0000);
    assert U32(n)[0] == hi[0] && U32(n)[1] == hi[1] && U32(n)[2] == lo[0] && U32(n)[3] == lo[1];
    assert hi[0] as int * 256 + hi[1] as int == n / 0x1_0000;
    assert lo[0] as int * 256 + lo[1] as int == n % 0x1_0000;
  }

  /** The payload byte by byte: the name after its length, the ID after its length,
      and the mode, numbers most significant byte first. */
  lemma ChannelBytes(x: Channel)
    requires ProperChannel(x)
    ensures var b, n, m := EncodeChannel(x), |x.name|, |x.id|;
      && |b| == 8 + n + m
      && b[0] as int * 256 + b[1] as int == n
      && (forall i :: 0 <= i < n ==> b[2 + i] == x.name[i])
      && b[2 + n] == 0 && b[3 + n] as int == m
      && (forall i :: 0 <= i < m ==> b[4 + n + i] == x.id[i])
      && b[4 + n + m] as int * 0x100_0000 + b[5 + n + m] as int * 0x1_0000
         + b[6 + n + m] as int * 0x100 + b[7 + n + m] as int == x.mode
  {
    var b, n, m := EncodeChannel(x), |x.name|, |x.id|;
    var size, idSize, mode := U16(n), U16(m), U32(x.mode);
    U32Bytes(x.mode);
    assert b == size + x.name + idSize + x.id + mode;
    assert size[0] as int * 256 + size[1] as int == n && idSize[0] == 0 && idSize[1] as int == m;
    hide U16, U32;
    assert b[0] == size[0] && b[1] == size[1];
    assert b[2 + n] == idSize[0] && b[3 + n] == idSize[1];
    assert b[4 + n + m] == mode[0] && b[5 + n + m] == mode[1] && b[6 + n + m] == mode[2] && b[7 + n + m] == mode[3];
  }

  /** A turn of the loop in silc_server_new_channel_list. */
  function TakeChannel(b: seq<byte>): (t: Taken<Channel>)
    ensures t.Taken? ==> |t.rest| < |b|
  {
    if |b| < 2 then Nothing
    else
      var n := Get16(b, 0);
      if n > |b| || n > CHANNEL_BUFFER || 4 + n > |b| then Nothing
      else
        var m := Get16(b, 2 + n);
        if m > |b| || m > CHANNEL_BUFFER || 8 + n + m > |b| then Nothing
        else Taken(Channel(b[2..2 + n], b[4 + n..4 + n + m], Get32(b, 4 + n + m)), b[8 + n + m..])
  }

  lemma TakeChannelBack(x: Channel, rest: seq<byte>)
    requires ProperChannel(x)
    ensures TakeChannel(EncodeChannel(x) + rest) == Taken(x, rest)
  {
    var b := EncodeChannel(x) + rest;
    var n, m := |x.name|, |x.id|;
    var front := U16(n) + x.name;
    var upto := front + U16(m) + x.id;
    assert b == [] + U16(n) + (x.name + U16(m) + x.id + U32(x.mode) + rest);
    RoundTrip16(n, [], x.name + U16(m) + x.id + U32(x.mode) + rest);
    assert b == front + U16(m) + (x.id + U32(x.mode) + rest);
    RoundTrip16(m, front, x.id + U32(x.mode) + rest);
    assert b == upto + U32(x.mode) + rest;
    RoundTrip32(x.mode, upto, rest);
    assert b[2..2 + n] == x.name && b[4 + n..4 + n + m] == x.id && b[8 + n + m..] == rest;
  }

  // ------------------------------------------------------------- whole lists

  predicate AllIds(xs: seq<Id>) {
    forall i :: 0 <= i < |xs| ==> ProperId(xs[i])
  }

  predicate AllChannels(xs: seq<Channel>) {
    forall i :: 0 <= i < |xs| ==> ProperChannel(xs[i])
  }

  function EncodeIds(xs: seq<Id>): seq<byte>
    requires AllIds(xs)
  {
    if xs == [] then [] else EncodeId(xs[0]) + EncodeIds(xs[1..])
  }

  function EncodeChannels(xs: seq<Channel>): seq<byte>
    requires AllChannels(xs)
  {
    if xs == [] then [] else EncodeChannel(xs[0]) + EncodeChannels(xs[1..])
  }

  /** What a decoder loop ends with: the items and the bytes it did not take. */
  datatype Decoded<T> = Decoded(items: seq<T>, left: seq<byte>)

  function DecodeIds(b: seq<byte>): Decoded<Id>
    decreases |b|
  {
    var t := TakeId(b);
    if t.Nothing? then Decoded([], b)
    else
      var d := DecodeIds(t.rest);
      Decoded([t.item] + d.items, d.left)
  }

  function DecodeChannels(b: seq<byte>): Decoded<Channel>
    decreases |b|
  {
    var t := TakeChannel(b);
    if t.Nothing? then Decoded([], b)
    else
      var d := DecodeChannels(t.rest);
      Decoded([t.item] + d.items, d.left)
  }

  /** Announced IDs are decoded to the same list, to the last byte. */
  lemma {:induction false} IdsRoundTrip(xs: seq<Id>)
    requires AllIds(xs)
    ensures DecodeIds(EncodeIds(xs)) == Decoded(xs, [])
  {
    if xs != [] {
      TakeIdBack(xs[0], EncodeIds(xs[1..]));
      IdsRoundTrip(xs[1..]);
      assert [xs[0]] + xs[1..] == xs;
    }
  }

  /** So are announced channels. */
  lemma {:induction false} ChannelsRoundTrip(xs: seq<Channel>)
    requires AllChannels(xs)
    ensures DecodeChannels(EncodeChannels(xs)) == Decoded(xs, [])
  {
    if xs != [] {
      TakeChannelBack(xs[0], EncodeChannels(xs[1..]));
      ChannelsRoundTrip(xs[1..]);
      assert [xs[0]] + xs[1..] == xs;
    }
  }

  // ------------------------------------------------- the loops, as they run

  lemma {:induction false} EncodeIdsSnoc(xs: seq<Id>, x: Id)
    requires AllIds(xs)
    requires ProperId(x)
    ensures EncodeIds(xs + [x]) == EncodeIds(xs) + EncodeId(x)
  {
    if xs == [] {
      assert xs + [x] == [x];
    } else {
      assert (xs + [x])[1..] == xs[1..] + [x];
      EncodeIdsSnoc(xs[1..], x);
    }
  }

  lemma {:induction false} EncodeChannelsSnoc(xs: seq<Channel>, x: Channel)
    requires AllChannels(xs)
    requires ProperChannel(x)
    ensures EncodeChannels(xs + [x]) == EncodeChannels(xs) + EncodeChannel(x)
  {
    if xs == [] {
      assert xs + [x] == [x];
    } else {
      assert (xs + [x])[1..] == xs[1..] + [x];
      EncodeChannelsSnoc(xs[1..], x);
    }
  }

  /** silc_server_announce_get_clients: appends to a growing buffer. */
  method AnnounceIds(xs: seq<Id>) returns (buffer: seq<byte>)
    requires AllIds(xs)
    ensures buffer == EncodeIds(xs)
  {
    buffer := [];
    var i := 0;
    while i < |xs|
      invariant 0 <= i <= |xs| && buffer == EncodeIds(xs[..i])
    {
      assert xs[..i + 1] == xs[..i] + [xs[i]];
      EncodeIdsSnoc(xs[..i], xs[i]);
      buffer := buffer + EncodeId(xs[i]);
      i := i + 1;
    }
    assert xs[..i] == xs;
  }

  /** silc_server_announce_get_channels. */
  method AnnounceChannels(xs: seq<Channel>) returns (buffer: seq<byte>)
    requires AllChannels(xs)
    ensures buffer == EncodeChannels(xs)
  {
    buffer := [];
    var i := 0;
    while i < |xs|
      invariant 0 <= i <= |xs| && buffer == EncodeChannels(xs[..i])
    {
      assert xs[..i + 1] == xs[..i] + [xs[i]];
      EncodeChannelsSnoc(xs[..i], xs[i]);
      buffer := buffer + EncodeChannel(xs[i]);
      i := i + 1;
    }
    assert xs[..i] == xs;
  }

  /** A buffer that decodes to its last byte has a whole payload in front. */
  lemma IdInFront(b: seq<byte>)
    requires b != [] && DecodeIds(b).left == []
    ensures |b| >= 4
    ensures var n := Get16(b, 2);
      && n <= |b| && n <= ID_BUFFER && 4 + n <= |b|
      && DecodeIds(b[4 + n..]).left == []
      && DecodeIds(b).items == [Id(Get16(b, 0), b[4..4 + n])] + DecodeIds(b[4 + n..]).items
  {
  }

  lemma ChannelInFront(b: seq<byte>)
    requires b != [] && DecodeChannels(b).left == []
    ensures |b| >= 8 && 4 + Get16(b, 0) <= |b|
    ensures var n := Get16(b, 0);
            var m := Get16(b, 2 + n);
      && n <= CHANNEL_BUFFER && m <= |b| && m <= CHANNEL_BUFFER && 8 + n + m <= |b|
      && DecodeChannels(b[8 + n + m..]).left == []
      && DecodeChannels(b).items
         == [Channel(b[2..2 + n], b[4 + n..4 + n + m], Get32(b, 4 + n + m))] + DecodeChannels(b[8 + n + m..]).items
  {
  }

  /** One turn of the loop: the checks, and the payload pulled off the front. */
  method PullId(buffer: seq<byte>) returns (ok: bool, item: Id, rest: seq<byte>)
    requires buffer != [] && DecodeIds(buffer).left == []
    ensures ok && |rest| < |buffer| && DecodeIds(rest).left == []
    ensures DecodeIds(buffer).items == [item] + DecodeIds(rest).items
  {
    hide *;
    IdInFront(buffer);
    item, rest := Id(0, []), buffer;
    var n := Get16(buffer, 2);
    ok := n <= |buffer| && n <= ID_BUFFER;
    if ok {
      item := Id(Get16(buffer, 0), buffer[4..4 + n]);
      rest := buffer[4 + n..];
    }
  }

  method PullChannel(buffer: seq<byte>) returns (ok: bool, item: Channel, rest: seq<byte>)
    requires buffer != [] && DecodeChannels(buffer).left == []
    ensures ok && |rest| < |buffer| && DecodeChannels(rest).left == []
    ensures DecodeChannels(buffer).items == [item] + DecodeChannels(rest).items
  {
    hide *;
    ChannelInFront(buffer);
    item, rest := Channel([], [], 0), buffer;
    var n := Get16(buffer, 0);
    ok := n <= |buffer| && n <= CHANNEL_BUFFER;
    if !ok {
      return;
    }
    var m := Get16(buffer, 2 + n);
    ok := m <= |buffer| && m <= CHANNEL_BUFFER;
    if ok {
      item := Channel(buffer[2..2 + n], buffer[4 + n..4 + n + m], Get32(buffer, 4 + n + m));
      rest := buffer[8 + n + m..];
    }
  }

  lemma NothingLeft()
    ensures DecodeIds([]).items == [] && DecodeChannels([]).items == []
  {
  }

  /** silc_server_new_id_list over a packet that the encoders wrote: it ends with
      the buffer empty, having processed every ID in order. */
  method ReceiveIds(packet: seq<byte>, ghost xs: seq<Id>) returns (items: seq<Id>)
    requires AllIds(xs) && packet == EncodeIds(xs)
    ensures items == xs
  {
    hide *;
    IdsRoundTrip(xs);
    items := [];
    var buffer := packet;
    while |buffer| > 0
      invariant DecodeIds(buffer).left == [] && items + DecodeIds(buffer).items == xs
      decreases |buffer|
    {
      var ok, item, rest := PullId(buffer);
      if !ok {
        break;
      }
      assert items + ([item] + DecodeIds(rest).items) == (items + [item]) + DecodeIds(rest).items;
      items := items + [item];
      buffer := rest;
    }
    NothingLeft();
  }

  /** silc_server_new_channel_list, likewise. */
  method ReceiveChannels(packet: seq<byte>, ghost xs: seq<Channel>) returns (items: seq<Channel>)
    requires AllChannels(xs) && packet == EncodeChannels(xs)
    ensures items == xs
  {
    hide *;
    ChannelsRoundTrip(xs);
    items := [];
    var buffer := packet;
    while |buffer| > 0
      invariant DecodeChannels(buffer).left == [] && items + DecodeChannels(buffer).items == xs
      decreases |buffer|
    {
      var ok, item, rest := PullChannel(buffer);
      if !ok {
        break;
      }
      assert items + ([item] + DecodeChannels(rest).items) == (items + [item]) + DecodeChannels(rest).items;
      items := items + [item];
      buffer := rest;
    }
    NothingLeft();
  }

  // ------------------------------------------------------ users of a channel

  /** The two parallel lists of silc_server_get_users_on_channel. */
  datatype User = User(id: Id, mode: nat)

  predicate ProperUser(u: User) {
    ProperId(u.id) && u.mode < 0x1_0000_0000
  }

  predicate AllUsers(us: seq<User>) {
    forall i :: 0 <= i < |us| ==> ProperUser(us[i])
  }

  function Ids(us: seq<User>): (xs: seq<Id>)
    requires AllUsers(us)
    ensures |xs| == |us| && AllIds(xs)
  {
    assert forall i :: 0 <= i < |us| ==> ProperUser(us[i]);
    seq(|us|, i requires 0 <= i < |us| => us[i].id)
  }

  function EncodeModes(us: seq<User>): (b: seq<byte>)
    requires AllUsers(us)
    ensures |b| == 4 * |us|
  {
    if us == [] then [] else assert ProperUser(us[0]); U32(us[0].mode) + EncodeModes(us[1..])
  }

  /** The mode list byte by byte: four bytes a user, most significant first. */
  lemma {:induction false} ModeBytes(us: seq<User>, i: nat)
    requires AllUsers(us) && i < |us|
    ensures var b := EncodeModes(us);
      && |b| == 4 * |us|
      && b[4 * i] as int * 0x100_0000 + b[4 * i + 1] as int * 0x1_0000
         + b[4 * i + 2] as int * 0x100 + b[4 * i + 3] as int == us[i].mode
  {
    assert ProperUser(us[0]);
    var first, b := U32(us[0].mode), EncodeModes(us);
    assert b == first + EncodeModes(us[1..]);
    hide U32;
    if i == 0 {
      U32Bytes(us[0].mode);
      assert b[0] == first[0] && b[1] == first[1] && b[2] == first[2] && b[3] == first[3];
    } else {
      ModeBytes(us[1..], i - 1);
      assert b[4..] == EncodeModes(us[1..]);
    }
  }

  /** silc_server_save_users_on_channel reads both lists side by side. */
  function DecodeUsers(ids: seq<byte>, modes: seq<byte>, count: nat): seq<User>
    decreases count
  {
    var t := TakeId(ids);
    if count == 0 || t.Nothing? || |modes| < 4 then []
    else [User(t.item, Get32(modes, 0))] + DecodeUsers(t.rest, modes[4..], count - 1)
  }

  lemma ModesFront(us: seq<User>)
    requires AllUsers(us) && us != []
    ensures |EncodeModes(us)| >= 4 && Get32(EncodeModes(us), 0) == us[0].mode
    ensures EncodeModes(us)[4..] == EncodeModes(us[1..])
  {
    assert ProperUser(us[0]);
    Front32(us[0].mode, EncodeModes(us[1..]));
    hide U32, Get32;
  }

  lemma IdsFront(us: seq<User>)
    requires AllUsers(us) && us != []
    ensures TakeId(EncodeIds(Ids(us))) == Taken(us[0].id, EncodeIds(Ids(us[1..])))
  {
    hide TakeId, EncodeId;
    assert Ids(us)[1..] == Ids(us[1..]);
    assert ProperUser(us[0]);
    TakeIdBack(us[0].id, EncodeIds(Ids(us[1..])));
  }

  /** Every user comes back with its own mode. */
  lemma {:induction false} UsersRoundTrip(us: seq<User>)
    requires AllUsers(us)
    ensures DecodeUsers(EncodeIds(Ids(us)), EncodeModes(us), |us|) == us
  {
    hide EncodeModes, EncodeIds, TakeId, Get32, Ids;
    if us != [] {
      ModesFront(us);
      IdsFront(us);
      UsersRoundTrip(us[1..]);
      assert [us[0]] + us[1..] == us;
    }
  }

  lemma {:induction false} EncodeModesSnoc(us: seq<User>, u: User)
    requires AllUsers(us) && ProperUser(u)
    ensures AllUsers(us + [u]) && EncodeModes(us + [u]) == EncodeModes(us) + U32(u.mode)
  {
    if us == [] {
      assert us + [u] == [u];
    } else {
      assert (us + [u])[1..] == us[1..] + [u];
      assert (us + [u])[0] == us[0];
      EncodeModesSnoc(us[1..], u);
    }
  }

  lemma IdsSnoc(us: seq<User>, u: User)
    requires AllUsers(us) && AllUsers(us + [u])
    ensures Ids(us + [u]) == Ids(us) + [u.id]
  {
  }

  /** silc_server_get_users_on_channel: both lists grow in step. */
  method GetUsers(us: seq<User>) returns (ids: seq<byte>, modes: seq<byte>, count: nat)
    requires AllUsers(us)
    ensures ids == EncodeIds(Ids(us)) && modes == EncodeModes(us) && count == |us|
  {
    ids, modes, count := [], [], 0;
    while count < |us|
      invariant 0 <= count <= |us| && AllUsers(us[..count])
      invariant ids == EncodeIds(Ids(us[..count])) && modes == EncodeModes(us[..count])
    {
      var u := us[count];
      assert us[..count + 1] == us[..count] + [u];
      assert ProperUser(u);
      EncodeModesSnoc(us[..count], u);
      IdsSnoc(us[..count], u);
      EncodeIdsSnoc(Ids(us[..count]), u.id);
      hide *;
      ids := ids + EncodeId(u.id);
      modes := modes + U32(u.mode);
      count := count + 1;
    }
    assert us[..count] == us;
  }

  lemma TakenMeans(b: seq<byte>)
    ensures TakeId(b).Taken? ==>
              && |b| >= 4 && 4 + Get16(b, 2) <= |b|
              && TakeId(b) == Taken(Id(Get16(b, 0), b[4..4 + Get16(b, 2)]), b[4 + Get16(b, 2)..])
  {
  }

  // -------------------------------------------------- saving them on a channel

  /** The clients a server has entries for, the registered ones, and the user list
      of the channel with its modes. */
  datatype Roll = Roll(known: set<Id>, registered: set<Id>, users: map<Id, nat>)

  /** Who may be put on the channel: registered clients, and on a normal server
      also clients nobody has heard of. */
  predicate Welcome(r: Roll, router: bool, id: Id) {
    if id in r.known then id in r.registered else !router
  }

  function Noted(us: seq<User>, noadd: Option<Id>): set<Id> {
    set u | u in us && Some(u.id) != noadd :: u.id
  }

  /** The mode that the list gives last. */
  function LastMode(us: seq<User>, id: Id): nat {
    if us == [] then 0
    else if us[|us| - 1].id == id then us[|us| - 1].mode
    else LastMode(us[..|us| - 1], id)
  }

  /** What the whole list comes to: every welcome client but `noadd` is on the
      channel with its last mode, everybody else as before. */
  function Saved(r: Roll, router: bool, noadd: Option<Id>, us: seq<User>): Roll {
    var noted := Noted(us, noadd);
    Roll(if router then r.known else r.known + noted,
         if router then r.registered else r.registered + (noted - r.known),
         map id | id in r.users.Keys + noted && (id in r.users || Welcome(r, router, id))
           :: if id in noted && Welcome(r, router, id) then LastMode(us, id) else r.users[id])
  }

  lemma {:induction false} LastModeIs(us: seq<User>, i: nat)
    requires i < |us| && forall j :: i < j < |us| ==> us[j].id != us[i].id
    ensures LastMode(us, us[i].id) == us[i].mode
  {
    if i < |us| - 1 {
      assert us[..|us| - 1][i] == us[i];
      LastModeIs(us[..|us| - 1], i);
    }
  }

  /** Written out: a client the list names, `noadd` apart, is put on the channel if
      it is registered or, on a normal server, unknown, in which case it gets an
      entry; it has the mode that the list gives last.  Nobody else is touched. */
  lemma SavedMeans(r: Roll, router: bool, noadd: Option<Id>, us: seq<User>, i: nat)
    requires i < |us| && forall j :: i < j < |us| ==> us[j].id != us[i].id
    ensures var t, id := Saved(r, router, noadd, us), us[i].id;
      && (Some(id) != noadd && (id in r.registered || id !in r.known) && (id in r.known || !router) ==>
            id in t.users && t.users[id] == us[i].mode)
      && (Some(id) == noadd || (id in r.known && id !in r.registered) || (id !in r.known && router) ==>
            && (id in t.users <==> id in r.users)
            && (id in r.users ==> t.users[id] == r.users[id]))
      && (Some(id) != noadd && id !in r.known && !router ==> id in t.known && id in t.registered)
      && (Some(id) == noadd || id in r.known || router ==>
            && (id in t.known <==> id in r.known)
            && (id in t.registered <==> id in r.registered))
  {
    LastModeIs(us, i);
    assert us[i] in us;
    hide LastMode;
  }

  lemma OthersNotSaved(r: Roll, router: bool, noadd: Option<Id>, us: seq<User>, id: Id)
    requires forall j :: 0 <= j < |us| ==> us[j].id != id
    ensures var t := Saved(r, router, noadd, us);
      && (id in t.users <==> id in r.users) && (id in r.users ==> t.users[id] == r.users[id])
      && (id in t.known <==> id in r.known) && (id in t.registered <==> id in r.registered)
  {
    assert id !in Noted(us, noadd);
    hide Noted, LastMode;
  }

  lemma NotedNext(us: seq<User>, u: User, noadd: Option<Id>)
    ensures Noted(us + [u], noadd) == Noted(us, noadd) + if Some(u.id) == noadd then {} else {u.id}
    ensures forall id :: LastMode(us + [u], id) == if id == u.id then u.mode else LastMode(us, id)
  {
    assert (us + [u])[..|us|] == us;
    assert forall v :: v in us + [u] <==> v in us || v == u;
  }

  lemma WelcomeStays(r: Roll, router: bool, noadd: Option<Id>, us: seq<User>, id: Id)
    ensures Welcome(Saved(r, router, noadd, us), router, id) <==> Welcome(r, router, id)
  {
  }

  lemma NothingSaved(r: Roll, router: bool, noadd: Option<Id>)
    ensures Saved(r, router, noadd, []) == r
  {
    assert Noted([], noadd) == {};
    assert Saved(r, router, noadd, []).users == r.users;
  }

  lemma SkippedSaved(r: Roll, router: bool, noadd: Option<Id>, us: seq<User>, u: User)
    requires Some(u.id) == noadd
    ensures Saved(r, router, noadd, us + [u]) == Saved(r, router, noadd, us)
  {
    NotedNext(us, u, noadd);
    assert Saved(r, router, noadd, us + [u]).users == Saved(r, router, noadd, us).users;
  }

  /** One more user, where everything depends on what came before. */
  lemma SavedNext(r: Roll, router: bool, noadd: Option<Id>, us: seq<User>, u: User)
    requires Some(u.id) != noadd
    ensures var t, n := Saved(r, router, noadd, us), Saved(r, router, noadd, us + [u]);
      && n.known == t.known + (if router then {} else {u.id})
      && n.registered == t.registered + (if router || u.id in t.known then {} else {u.id})
      && n.users == if Welcome(t, router, u.id) then t.users[u.id := u.mode] else t.users
  {
    NotedNext(us, u, noadd);
    WelcomeStays(r, router, noadd, us, u.id);
    var t, n := Saved(r, router, noadd, us), Saved(r, router, noadd, us + [u]);
    var expected := if Welcome(t, router, u.id) then t.users[u.id := u.mode] else t.users;
    hide Noted, LastMode;
    assert n.users.Keys == expected.Keys;
    assert forall id :: id in expected ==> n.users[id] == expected[id];
    assert n.users == expected;
  }

  /** The body of the loop, for one client. */
  method SaveUser(r: Roll, router: bool, u: User) returns (t: Roll)
    ensures t.known == r.known + (if router then {} else {u.id})
    ensures t.registered == r.registered + (if router || u.id in r.known then {} else {u.id})
    ensures t.users == if Welcome(r, router, u.id) then r.users[u.id := u.mode] else r.users
  {
    t := r;
    if u.id !in r.known {
      if router {
        return;
      }
      t := t.(known := t.known + {u.id}, registered := t.registered + {u.id});
    }
    if u.id !in t.registered {
      return;
    }
    t := t.(users := t.users[u.id := u.mode]);
  }

  /** Takes one client off both lists. */
  method NextUser(ids: seq<byte>, modes: seq<byte>, ghost us: seq<User>)
    returns (u: User, ids2: seq<byte>, modes2: seq<byte>)
    requires us != [] && AllUsers(us) && ids == EncodeIds(Ids(us)) && modes == EncodeModes(us)
    ensures u == us[0] && AllUsers(us[1..]) && ids2 == EncodeIds(Ids(us[1..])) && modes2 == EncodeModes(us[1..])
  {
    ModesFront(us);
    IdsFront(us);
    TakenMeans(ids);
    hide *;
    var n := Get16(ids, 2);
    u := User(Id(Get16(ids, 0), ids[4..4 + n]), Get32(modes, 0));
    ids2, modes2 := ids[4 + n..], modes[4..];
  }

  /** silc_server_save_users_on_channel over lists that the encoder wrote: the
      channel's list becomes what the announcement says, except for `noadd`. */
  method SaveUsers(ids: seq<byte>, modes: seq<byte>, count: nat, noadd: Option<Id>, router: bool, r: Roll,
                   ghost us: seq<User>) returns (t: Roll)
    requires AllUsers(us) && count == |us| && ids == EncodeIds(Ids(us)) && modes == EncodeModes(us)
    ensures t == Saved(r, router, noadd, us)
  {
    t := r;
    NothingSaved(r, router, noadd);
    var userList, modeList, i := ids, modes, 0;
    assert us[..0] == [] && us[0..] == us;
    hide Saved, Ids, EncodeIds, EncodeModes;
    while i < count
      invariant 0 <= i <= count && AllUsers(us[i..])
      invariant t == Saved(r, router, noadd, us[..i])
      invariant userList == EncodeIds(Ids(us[i..])) && modeList == EncodeModes(us[i..])
    {
      var u;
      u, userList, modeList := NextUser(userList, modeList, us[i..]);
      assert us[i..][1..] == us[i + 1..] && us[..i + 1] == us[..i] + [u];
      i := i + 1;
      if Some(u.id) == noadd {
        SkippedSaved(r, router, noadd, us[..i - 1], u);
        continue;
      }
      SavedNext(r, router, noadd, us[..i - 1], u);
      t := SaveUser(t, router, u);
    }
    assert us[..i] == us;
  }
}
