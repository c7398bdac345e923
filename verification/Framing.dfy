/**
 Length-prefixed framing: messages with attachments on a connection, and chunks in a buffer or file.
 */
module Framing {
  import opened Sequences
  import Tilings

  // ---- fields --------------------------------------------------------------------------------

  function Power(width: nat): nat { if width == 0 then 1 else 256 * Power(width - 1) }

  /** A number in a field of the given width, least significant byte first. */
  function Pack(n: nat, width: nat): (r: seq<Byte>)
    ensures |r| == width
  {
    if width == 0 then [] else [n % 256] + Pack(n / 256, width - 1)
  }

  function Unpack(bytes: seq<Byte>): nat {
    if bytes == [] then 0 else bytes[0] + 256 * Unpack(bytes[1..])
  }

  lemma {:induction false} PackRoundTrip(n: nat, width: nat)
    requires n < Power(width)
    ensures Unpack(Pack(n, width)) == n
  {
    if width > 0 {
      PackRoundTrip(n / 256, width - 1);
      assert Pack(n, width)[1..] == Pack(n / 256, width - 1);
    }
  }

  lemma {:induction false} UnpackRoundTrip(bytes: seq<Byte>)
    ensures Unpack(bytes) < Power(|bytes|) && Pack(Unpack(bytes), |bytes|) == bytes
  {
    if bytes != [] {
      var rest := Unpack(bytes[1..]);
      UnpackRoundTrip(bytes[1..]);
      LowByte(bytes[0], rest);
      assert bytes == [bytes[0]] + Pack(rest, |bytes| - 1);
    }
  }

  lemma LowByte(low: Byte, rest: nat)
    ensures (low + 256 * rest) % 256 == low && (low + 256 * rest) / 256 == rest
  {
  }

  /** The i-th byte has the weight of the i-th power. */
  lemma {:induction false} LittleEndian(n: nat, width: nat, i: nat)
    requires i < width
    ensures Power(i) > 0 && Pack(n, width)[i] == n / Power(i) % 256
    decreases width
  {
    PowerPositive(i);
    if i > 0 {
      LittleEndian(n / 256, width - 1, i - 1);
      NestedQuotient(n, 256, Power(i - 1));
    }
  }

  lemma {:induction false} PowerPositive(i: nat)
    ensures Power(i) > 0
  {
    if i > 0 {
      PowerPositive(i - 1);
    }
  }

  lemma NestedQuotient(n: nat, a: nat, b: nat)
    requires a > 0 && b > 0
    ensures a * b > 0 && n / a / b == n / (a * b)
  {
    var r := Tilings.Quotient(n, a);
    var q := Tilings.Quotient(r, b);
    NestedBounds(n, a, b, r, q);
    Tilings.QuotientUnique(a * b, n, q);
  }

  lemma NestedBounds(n: nat, a: nat, b: nat, r: nat, q: nat)
    requires a > 0 && b > 0 && Tilings.IsQuotient(r, n, a) && Tilings.IsQuotient(q, r, b)
    ensures a * b > 0 && a * b * q <= n < a * b * q + a * b
  {
    Tilings.ProductAbove(a, b * q, r);
    Tilings.ProductAbove(a, r + 1, b * q + b);
    assert a * (b * q) == a * b * q && a * (b * q + b) == a * b * q + a * b && a * (r + 1) == a * r + a;
  }

  const Short: nat := 4
  const Long: nat := 8

  datatype Read<T> = Read(value: T, rest: seq<Byte>)

  /** Exactly n bytes, or nothing if the stream ends before. */
  function Take(s: seq<Byte>, n: nat): Option<Read<seq<Byte>>> {
    if n <= |s| then Some(Read(s[..n], s[n..])) else None
  }

  function TakeNumber(s: seq<Byte>, width: nat): Option<Read<nat>> {
    match Take(s, width)
    case None => None
    case Some(r) => Some(Read(Unpack(r.value), r.rest))
  }

  function TakeField(s: seq<Byte>, width: nat): Option<Read<seq<Byte>>> {
    match TakeNumber(s, width)
    case None => None
    case Some(r) => Take(r.rest, r.value)
  }

  function Field(data: seq<Byte>, width: nat): seq<Byte> { Pack(|data|, width) + data }

  lemma NumberRoundTrip(n: nat, width: nat, rest: seq<Byte>)
    requires n < Power(width)
    ensures TakeNumber(Pack(n, width) + rest, width) == Some(Read(n, rest))
  {
    PackRoundTrip(n, width);
    assert (Pack(n, width) + rest)[..width] == Pack(n, width);
    assert (Pack(n, width) + rest)[width..] == rest;
  }

  lemma FieldRoundTrip(data: seq<Byte>, width: nat, rest: seq<Byte>)
    requires |data| < Power(width)
    ensures TakeField(Field(data, width) + rest, width) == Some(Read(data, rest))
  {
    assert Field(data, width) + rest == Pack(|data|, width) + (data + rest);
    NumberRoundTrip(|data|, width, data + rest);
    assert (data + rest)[..|data|] == data && (data + rest)[|data|..] == rest;
  }

  // ---- messages ------------------------------------------------------------------------------

  datatype Attachment = Attachment(key: seq<Byte>, data: seq<Byte>)

  /** A message to send; the attachments have different keys. */
  datatype Message = Message(marshalled: bool, attachments: seq<Attachment>, body: seq<Byte>)

  /** A message as received. */
  datatype Received = Received(marshalled: bool, attachments: map<seq<Byte>, seq<Byte>>, body: seq<Byte>)

  ghost predicate Sendable(m: Message) {
    && |m.attachments| < Power(Short) && |m.body| < Power(Long)
    && (forall i :: 0 <= i < |m.attachments| ==>
      |m.attachments[i].key| < Power(Short) && |m.attachments[i].data| < Power(Long))
    && forall i, j :: 0 <= i < j < |m.attachments| ==> m.attachments[i].key != m.attachments[j].key
  }

  function EncodeAttachment(a: Attachment): seq<Byte> { Field(a.key, Short) + Field(a.data, Long) }

  function EncodeAttachments(parts: seq<Attachment>): seq<Byte> {
    if parts == [] then [] else EncodeAttachment(parts[0]) + EncodeAttachments(parts[1..])
  }

  function Format(m: Message): Byte { (if m.marshalled then 1 else 0) + (if m.attachments != [] then 2 else 0) }

  function Encode(m: Message): seq<Byte> {
    [Format(m)] + Attached(m) + Field(m.body, Long)
  }

  function Attached(m: Message): seq<Byte> {
    if m.attachments != [] then Pack(|m.attachments|, Short) + EncodeAttachments(m.attachments) else []
  }

  function TakeAttachment(s: seq<Byte>): Option<Read<Attachment>> {
    match TakeField(s, Short)
    case None => None
    case Some(k) =>
      match TakeField(k.rest, Long)
      case None => None
      case Some(v) => Some(Read(Attachment(k.value, v.value), v.rest))
  }

  function DecodeAttachments(
    s: seq<Byte>, n: nat, found: map<seq<Byte>, seq<Byte>>): Option<Read<map<seq<Byte>, seq<Byte>>>>
    decreases n
  {
    if n == 0 then Some(Read(found, s))
    else
      match TakeAttachment(s)
      case None => None
      case Some(a) => DecodeAttachments(a.rest, n - 1, found[a.value.key := a.value.data])
  }

  function DecodeBody(marshalled: bool, attachments: map<seq<Byte>, seq<Byte>>, s: seq<Byte>): Option<Read<Received>> {
    match TakeField(s, Long)
    case None => None
    case Some(r) => Some(Read(Received(marshalled, attachments, r.value), r.rest))
  }

  function DecodeAttached(marshalled: bool, s: seq<Byte>): Option<Read<Received>> {
    match TakeNumber(s, Short)
    case None => None
    case Some(count) =>
      match DecodeAttachments(count.rest, count.value, map[])
      case None => None
      case Some(a) => DecodeBody(marshalled, a.value, a.rest)
  }

  function Decode(s: seq<Byte>): Option<Read<Received>> {
    if s == [] then None
    else if s[0] / 2 % 2 == 1 then DecodeAttached(s[0] % 2 == 1, s[1..])
    else DecodeBody(s[0] % 2 == 1, map[], s[1..])
  }

  function Collect(parts: seq<Attachment>, found: map<seq<Byte>, seq<Byte>>): map<seq<Byte>, seq<Byte>>
    decreases |parts|
  {
    if parts == [] then found else Collect(parts[1..], found[parts[0].key := parts[0].data])
  }

  function AsReceived(m: Message): Received { Received(m.marshalled, Collect(m.attachments, map[]), m.body) }

  /** With different keys, nothing is overwritten: exactly the attachments are collected. */
  lemma {:induction false} CollectAll(parts: seq<Attachment>, found: map<seq<Byte>, seq<Byte>>)
    requires forall i, j :: 0 <= i < j < |parts| ==> parts[i].key != parts[j].key
    ensures forall i :: 0 <= i < |parts| ==>
      parts[i].key in Collect(parts, found) && Collect(parts, found)[parts[i].key] == parts[i].data
    ensures forall k :: k in Collect(parts, found) <==> k in found || exists i :: 0 <= i < |parts| && parts[i].key == k
    ensures forall k :: k in found && (forall i :: 0 <= i < |parts| ==> parts[i].key != k) ==>
      k in Collect(parts, found) && Collect(parts, found)[k] == found[k]
    decreases |parts|
  {
    if parts != [] {
      var more := found[parts[0].key := parts[0].data];
      CollectAll(parts[1..], more);
      assert forall i :: 1 <= i < |parts| ==> parts[i] == parts[1..][i - 1];
      forall k ensures k in Collect(parts, found) <==> k in found || exists i :: 0 <= i < |parts| && parts[i].key == k {
        if i :| 0 <= i < |parts| && parts[i].key == k {
          assert i > 0 ==> parts[1..][i - 1].key == k;
        }
      }
    }
  }

  lemma AttachmentRoundTrip(a: Attachment, rest: seq<Byte>)
    requires |a.key| < Power(Short) && |a.data| < Power(Long)
    ensures TakeAttachment(EncodeAttachment(a) + rest) == Some(Read(a, rest))
  {
    assert EncodeAttachment(a) + rest == Field(a.key, Short) + (Field(a.data, Long) + rest);
    FieldRoundTrip(a.key, Short, Field(a.data, Long) + rest);
    FieldRoundTrip(a.data, Long, rest);
  }

  lemma {:induction false} AttachmentsRoundTrip(
    parts: seq<Attachment>, rest: seq<Byte>, found: map<seq<Byte>, seq<Byte>>)
    requires forall i :: 0 <= i < |parts| ==> |parts[i].key| < Power(Short) && |parts[i].data| < Power(Long)
    ensures DecodeAttachments(EncodeAttachments(parts) + rest, |parts|, found) ==
      Some(Read(Collect(parts, found), rest))
    decreases |parts|
  {
    if parts == [] {
      assert EncodeAttachments(parts) + rest == rest;
    } else {
      var a, others := parts[0], EncodeAttachments(parts[1..]) + rest;
      assert EncodeAttachments(parts) + rest == EncodeAttachment(a) + others;
      AttachmentRoundTrip(a, others);
      AttachmentsRoundTrip(parts[1..], rest, found[a.key := a.data]);
    }
  }

  lemma AttachedRoundTrip(m: Message, s: seq<Byte>, rest: seq<Byte>)
    requires Sendable(m)
    requires s == Pack(|m.attachments|, Short) + (EncodeAttachments(m.attachments) + (Field(m.body, Long) + rest))
    ensures DecodeAttached(m.marshalled, s) == Some(Read(AsReceived(m), rest))
  {
    var body := Field(m.body, Long) + rest;
    NumberRoundTrip(|m.attachments|, Short, EncodeAttachments(m.attachments) + body);
    AttachmentsRoundTrip(m.attachments, body, map[]);
    BodyRoundTrip(m, Collect(m.attachments, map[]), rest);
  }

  lemma BodyRoundTrip(m: Message, found: map<seq<Byte>, seq<Byte>>, rest: seq<Byte>)
    requires Sendable(m)
    ensures DecodeBody(m.marshalled, found, Field(m.body, Long) + rest) ==
      Some(Read(Received(m.marshalled, found, m.body), rest))
  {
    FieldRoundTrip(m.body, Long, rest);
  }

  lemma FormatBits(m: Message)
    ensures (Format(m) % 2 == 1 <==> m.marshalled) && (Format(m) / 2 % 2 == 1 <==> m.attachments != [])
  {
  }

  lemma Behind(f: Byte, a: seq<Byte>, b: seq<Byte>, c: seq<Byte>)
    ensures [f] + a + b + c == [f] + (a + (b + c)) && ([f] + (a + (b + c)))[1..] == a + (b + c)
  {
  }

  /** What follows the format byte. */
  lemma TailRoundTrip(m: Message, rest: seq<Byte>)
    requires Sendable(m)
    ensures var s := Attached(m) + (Field(m.body, Long) + rest);
      && (m.attachments == [] ==> DecodeBody(m.marshalled, map[], s) == Some(Read(AsReceived(m), rest)))
      && (m.attachments != [] ==> DecodeAttached(m.marshalled, s) == Some(Read(AsReceived(m), rest)))
  {
    if m.attachments == [] {
      assert Attached(m) + (Field(m.body, Long) + rest) == Field(m.body, Long) + rest;
      BodyRoundTrip(m, map[], rest);
    } else {
      ConcatAssociative(Pack(|m.attachments|, Short), EncodeAttachments(m.attachments), Field(m.body, Long) + rest);
      AttachedRoundTrip(m, Attached(m) + (Field(m.body, Long) + rest), rest);
    }
  }

  /** A message is recovered from the front of a stream, and nothing more is consumed. */
  lemma MessageRoundTrip(m: Message, rest: seq<Byte>)
    requires Sendable(m)
    ensures Decode(Encode(m) + rest) == Some(Read(AsReceived(m), rest))
  {
    FormatBits(m);
    Behind(Format(m), Attached(m), Field(m.body, Long), rest);
    TailRoundTrip(m, rest);
  }

  /** A message with one attachment, byte for byte. */
  lemma OnTheWire()
    ensures Encode(Message(true, [Attachment([7], [8, 9])], [5])) ==
      [3] + ([1, 0, 0, 0] + (([1, 0, 0, 0] + [7]) + ([2, 0, 0, 0, 0, 0, 0, 0] + [8, 9])))
          + ([1, 0, 0, 0, 0, 0, 0, 0] + [5])
  {
    var a := Attachment([7], [8, 9]);
    FieldsOnTheWire();
    assert EncodeAttachments([a]) == EncodeAttachment(a) + EncodeAttachments([]) == EncodeAttachment(a);
  }

  lemma FieldsOnTheWire()
    ensures Pack(1, Short) == [1, 0, 0, 0] && Field([7], Short) == [1, 0, 0, 0] + [7]
    ensures Field([8, 9], Long) == [2, 0, 0, 0, 0, 0, 0, 0] + [8, 9]
    ensures Field([5], Long) == [1, 0, 0, 0, 0, 0, 0, 0] + [5]
  {
    PackSmall(1, Short);
    PackSmall(1, Long);
    PackSmall(2, Long);
    assert Zeros(3) == [0, 0, 0] && Zeros(7) == [0, 0, 0, 0, 0, 0, 0];
  }

  function Zeros(n: nat): seq<Byte> { seq(n, _ => 0) }

  lemma PackSmall(n: nat, width: nat)
    requires n < 256 && width > 0
    ensures Pack(n, width) == [n] + Zeros(width - 1)
  {
    PackNothing(width - 1);
  }

  lemma {:induction false} PackNothing(width: nat)
    ensures Pack(0, width) == Zeros(width)
  {
    if width > 0 {
      PackNothing(width - 1);
      assert Zeros(width) == [0] + Zeros(width - 1);
    }
  }

  // ---- what is not complete yet --------------------------------------------------------------

  lemma FieldExtends(s: seq<Byte>, t: seq<Byte>, width: nat)
    ensures match TakeField(s, width)
      case None => true
      case Some(r) => TakeField(s + t, width) == Some(Read(r.value, r.rest + t))
  {
    if width <= |s| {
      assert (s + t)[..width] == s[..width] && (s + t)[width..] == s[width..] + t;
      var rest, n := s[width..], Unpack(s[..width]);
      if n <= |rest| {
        assert (rest + t)[..n] == rest[..n] && (rest + t)[n..] == rest[n..] + t;
      }
    }
  }

  lemma NumberExtends(s: seq<Byte>, t: seq<Byte>, width: nat)
    ensures match TakeNumber(s, width)
      case None => true
      case Some(r) => TakeNumber(s + t, width) == Some(Read(r.value, r.rest + t))
  {
    if width <= |s| {
      assert (s + t)[..width] == s[..width] && (s + t)[width..] == s[width..] + t;
    }
  }

  lemma AttachmentExtends(s: seq<Byte>, t: seq<Byte>)
    ensures match TakeAttachment(s)
      case None => true
      case Some(r) => TakeAttachment(s + t) == Some(Read(r.value, r.rest + t))
  {
    FieldExtends(s, t, Short);
    if TakeField(s, Short).Some? {
      FieldExtends(TakeField(s, Short).value.rest, t, Long);
    }
  }

  lemma {:induction false} AttachmentsExtend(s: seq<Byte>, t: seq<Byte>, n: nat, found: map<seq<Byte>, seq<Byte>>)
    ensures match DecodeAttachments(s, n, found)
      case None => true
      case Some(r) => DecodeAttachments(s + t, n, found) == Some(Read(r.value, r.rest + t))
    decreases n
  {
    if n > 0 {
      AttachmentExtends(s, t);
      if TakeAttachment(s).Some? {
        var a := TakeAttachment(s).value;
        AttachmentsExtend(a.rest, t, n - 1, found[a.value.key := a.value.data]);
      }
    }
  }

  lemma BodyExtends(marshalled: bool, attachments: map<seq<Byte>, seq<Byte>>, s: seq<Byte>, t: seq<Byte>)
    ensures match DecodeBody(marshalled, attachments, s)
      case None => true
      case Some(r) => DecodeBody(marshalled, attachments, s + t) == Some(Read(r.value, r.rest + t))
  {
    FieldExtends(s, t, Long);
  }

  lemma AttachedExtends(marshalled: bool, s: seq<Byte>, t: seq<Byte>)
    ensures match DecodeAttached(marshalled, s)
      case None => true
      case Some(r) => DecodeAttached(marshalled, s + t) == Some(Read(r.value, r.rest + t))
  {
    NumberExtends(s, t, Short);
    if TakeNumber(s, Short).Some? {
      var count := TakeNumber(s, Short).value;
      AttachmentsExtend(count.rest, t, count.value, map[]);
      if DecodeAttachments(count.rest, count.value, map[]).Some? {
        var a := DecodeAttachments(count.rest, count.value, map[]).value;
        BodyExtends(marshalled, a.value, a.rest, t);
      }
    }
  }

  /** Bytes that arrive later do not change what was decoded. */
  lemma DecodeExtends(s: seq<Byte>, t: seq<Byte>)
    ensures match Decode(s)
      case None => true
      case Some(r) => Decode(s + t) == Some(Read(r.value, r.rest + t))
  {
    if s != [] {
      assert (s + t)[0] == s[0] && (s + t)[1..] == s[1..] + t;
      BodyExtends(s[0] % 2 == 1, map[], s[1..], t);
      AttachedExtends(s[0] % 2 == 1, s[1..], t);
    }
  }

  /** A message is decoded only when all of it is there. */
  lemma PrefixIncomplete(m: Message, n: nat)
    requires Sendable(m) && n < |Encode(m)|
    ensures Decode(Encode(m)[..n]) == None
  {
    var s, t := Encode(m)[..n], Encode(m)[n..];
    assert s + t == Encode(m) == Encode(m) + [];
    MessageRoundTrip(m, []);
    DecodeExtends(s, t);
  }

  function EncodeAll(ms: seq<Message>): seq<Byte> {
    if ms == [] then [] else Encode(ms[0]) + EncodeAll(ms[1..])
  }

  function DecodeMany(s: seq<Byte>, n: nat): Option<Read<seq<Received>>>
    decreases n
  {
    if n == 0 then Some(Read([], s))
    else
      match Decode(s)
      case None => None
      case Some(first) =>
        match DecodeMany(first.rest, n - 1)
        case None => None
        case Some(others) => Some(Read([first.value] + others.value, others.rest))
  }

  function AllReceived(ms: seq<Message>): seq<Received> {
    if ms == [] then [] else [AsReceived(ms[0])] + AllReceived(ms[1..])
  }

  /** Any sequence of messages survives the concatenated stream. */
  lemma {:induction false} StreamRoundTrip(ms: seq<Message>, rest: seq<Byte>)
    requires forall i :: 0 <= i < |ms| ==> Sendable(ms[i])
    ensures DecodeMany(EncodeAll(ms) + rest, |ms|) == Some(Read(AllReceived(ms), rest))
  {
    if ms == [] {
      assert EncodeAll(ms) + rest == rest;
    } else {
      ConcatAssociative(Encode(ms[0]), EncodeAll(ms[1..]), rest);
      MessageRoundTrip(ms[0], EncodeAll(ms[1..]) + rest);
      StreamRoundTrip(ms[1..], rest);
    }
  }

  // ---- the connection ------------------------------------------------------------------------

  class Connection {
    var outgoing: seq<Byte>
    var incoming: seq<Byte>
    var bytesReceived: nat

    constructor ()
      ensures outgoing == [] && incoming == [] && bytesReceived == 0
    {
      outgoing, incoming, bytesReceived := [], [], 0;
    }

    method Send(m: Message)
      requires Sendable(m)
      modifies this`outgoing
      ensures outgoing == old(outgoing) + Encode(m)
    {
      ghost var before := outgoing;
      if m.attachments != [] {
        outgoing := outgoing + ([Format(m)] + Pack(|m.attachments|, Short));
        SendAttachments(m.attachments);
        outgoing := outgoing + (Pack(|m.body|, Long) + m.body);
        Joined(before, [Format(m)], Pack(|m.attachments|, Short), EncodeAttachments(m.attachments),
          Field(m.body, Long));
      } else {
        outgoing := outgoing + ([Format(m)] + Pack(|m.body|, Long) + m.body);
        JoinedPlain(before, [Format(m)], Pack(|m.body|, Long), m.body);
      }
    }

    method SendAttachments(parts: seq<Attachment>)
      modifies this`outgoing
      ensures outgoing == old(outgoing) + EncodeAttachments(parts)
    {
      var i := 0;
      assert parts[..0] == [];
      while i < |parts|
        invariant 0 <= i <= |parts| && outgoing == old(outgoing) + EncodeAttachments(parts[..i])
      {
        var a := parts[i];
        AttachmentsNext(parts, i);
        AttachmentBytes(old(outgoing), EncodeAttachments(parts[..i]), a);
        outgoing := outgoing + (Pack(|a.key|, Short) + a.key + Pack(|a.data|, Long));
        outgoing := outgoing + a.data;
        i := i + 1;
      }
      assert parts[..i] == parts;
    }

    method ReadExactly(n: nat) returns (r: Option<seq<Byte>>)
      modifies this`incoming
      ensures r.Some? ==> Take(old(incoming), n) == Some(Read(r.value, incoming))
      ensures r.None? ==> Take(old(incoming), n) == None && incoming == old(incoming)
    {
      if n > |incoming| {
        return None;
      }
      r := Some(incoming[..n]);
      incoming := incoming[n..];
    }

    method ReceiveNumber(width: nat) returns (r: Option<nat>)
      modifies this`incoming, this`bytesReceived
      ensures r.Some? ==> TakeNumber(old(incoming), width) == Some(Read(r.value, incoming))
      ensures r.None? ==> TakeNumber(old(incoming), width) == None
      ensures r.Some? ==> bytesReceived + |incoming| == old(bytesReceived + |incoming|)
    {
      var buffer := ReadExactly(width);
      if buffer.None? {
        return None;
      }
      bytesReceived := bytesReceived + width;
      return Some(Unpack(buffer.value));
    }

    method ReceiveField(width: nat) returns (r: Option<seq<Byte>>)
      modifies this`incoming, this`bytesReceived
      ensures r.Some? ==> TakeField(old(incoming), width) == Some(Read(r.value, incoming))
      ensures r.None? ==> TakeField(old(incoming), width) == None
      ensures r.Some? ==> bytesReceived + |incoming| == old(bytesReceived + |incoming|)
    {
      var size := ReceiveNumber(width);
      if size.None? {
        return None;
      }
      r := ReadExactly(size.value);
      if r.Some? {
        bytesReceived := bytesReceived + size.value;
      }
    }

    method ReceiveAttachment() returns (r: Option<Attachment>)
      modifies this`incoming, this`bytesReceived
      ensures r.Some? ==> TakeAttachment(old(incoming)) == Some(Read(r.value, incoming))
      ensures r.None? ==> TakeAttachment(old(incoming)) == None
      ensures r.Some? ==> bytesReceived + |incoming| == old(bytesReceived + |incoming|)
    {
      var key := ReceiveField(Short);
      if key.None? {
        return None;
      }
      var data := ReceiveField(Long);
      if data.None? {
        return None;
      }
      return Some(Attachment(key.value, data.value));
    }

    /** One attachment, added to those found; n are to come. */
    method ReceiveNext(found: map<seq<Byte>, seq<Byte>>, ghost n: nat) returns (r: Option<map<seq<Byte>, seq<Byte>>>)
      requires n > 0
      modifies this`incoming, this`bytesReceived
      ensures r.Some? ==>
        DecodeAttachments(old(incoming), n, found) == DecodeAttachments(incoming, n - 1, r.value)
      ensures r.None? ==> DecodeAttachments(old(incoming), n, found) == None
      ensures r.Some? ==> bytesReceived + |incoming| == old(bytesReceived + |incoming|)
    {
      var a := ReceiveAttachment();
      if a.None? {
        return None;
      }
      return Some(found[a.value.key := a.value.data]);
    }

    method ReceiveAttachments(count: nat) returns (r: Option<map<seq<Byte>, seq<Byte>>>)
      modifies this`incoming, this`bytesReceived
      ensures r.Some? ==> DecodeAttachments(old(incoming), count, map[]) == Some(Read(r.value, incoming))
      ensures r.None? ==> DecodeAttachments(old(incoming), count, map[]) == None
      ensures r.Some? ==> bytesReceived + |incoming| == old(bytesReceived + |incoming|)
    {
      var found: map<seq<Byte>, seq<Byte>> := map[];
      ghost var all := DecodeAttachments(incoming, count, found);
      var i := 0;
      ghost var left: nat := count;
      while i < count
        invariant i + left == count && bytesReceived + |incoming| == old(bytesReceived + |incoming|)
        invariant DecodeAttachments(incoming, left, found) == all
      {
        var more := ReceiveNext(found, left);
        if more.None? {
          return None;
        }
        found, i, left := more.value, i + 1, left - 1;
      }
      return Some(found);
    }

    /** Receives one message; the format byte is not counted. */
    method Receive() returns (r: Option<Received>)
      modifies this`incoming, this`bytesReceived
      ensures r.Some? ==> Decode(old(incoming)) == Some(Read(r.value, incoming))
      ensures r.None? ==> Decode(old(incoming)) == None
      ensures r.Some? ==> bytesReceived + |incoming| + 1 == old(bytesReceived + |incoming|)
    {
      var fmt := ReadExactly(1);
      if fmt.None? {
        return None;
      }
      var marshalled := fmt.value[0] % 2 == 1;
      var attachments: map<seq<Byte>, seq<Byte>> := map[];
      if fmt.value[0] / 2 % 2 == 1 {
        var count := ReceiveNumber(Short);
        if count.None? {
          return None;
        }
        var found := ReceiveAttachments(count.value);
        if found.None? {
          return None;
        }
        attachments := found.value;
      }
      var body := ReceiveField(Long);
      if body.None? {
        return None;
      }
      return Some(Received(marshalled, attachments, body.value));
    }
  }

  lemma Joined(o: seq<Byte>, f: seq<Byte>, n: seq<Byte>, e: seq<Byte>, b: seq<Byte>)
    ensures o + (f + n) + e + b == o + (f + (n + e) + b)
  {
  }

  lemma JoinedPlain(o: seq<Byte>, f: seq<Byte>, n: seq<Byte>, b: seq<Byte>)
    ensures o + (f + n + b) == o + (f + [] + (n + b))
  {
  }

  lemma AttachmentBytes(o: seq<Byte>, e: seq<Byte>, a: Attachment)
    ensures o + e + (Pack(|a.key|, Short) + a.key + Pack(|a.data|, Long)) + a.data == o + (e + EncodeAttachment(a))
  {
    Six(o, e, Pack(|a.key|, Short), a.key, Pack(|a.data|, Long), a.data);
  }

  lemma Six(o: seq<Byte>, e: seq<Byte>, a: seq<Byte>, b: seq<Byte>, c: seq<Byte>, d: seq<Byte>)
    ensures o + e + (a + b + c) + d == o + (e + ((a + b) + (c + d)))
  {
  }

  lemma {:induction false} AttachmentsConcat(a: seq<Attachment>, b: seq<Attachment>)
    ensures EncodeAttachments(a + b) == EncodeAttachments(a) + EncodeAttachments(b)
  {
    if a == [] {
      assert a + b == b;
    } else {
      assert (a + b)[1..] == a[1..] + b;
      AttachmentsConcat(a[1..], b);
    }
  }

  lemma AttachmentsNext(parts: seq<Attachment>, i: nat)
    requires i < |parts|
    ensures EncodeAttachments(parts[..i + 1]) == EncodeAttachments(parts[..i]) + EncodeAttachment(parts[i])
  {
    assert parts[..i + 1] == parts[..i] + [parts[i]];
    AttachmentsConcat(parts[..i], [parts[i]]);
    assert EncodeAttachments([parts[i]]) == EncodeAttachment(parts[i]) + EncodeAttachments([]);
  }

  // ---- chunks in a buffer or file ------------------------------------------------------------

  function Dumps(chunks: seq<seq<Byte>>): seq<Byte> {
    if chunks == [] then [] else Field(chunks[0], Short) + Dumps(chunks[1..])
  }

  function AtMost(s: seq<Byte>, n: nat): nat { if n <= |s| then n else |s| }

  /** Chunks until the end; an incomplete length is an error, an incomplete last chunk is not noticed. */
  function Loads(data: seq<Byte>): Option<seq<seq<Byte>>>
    decreases |data|
  {
    if data == [] then Some([])
    else if |data| < Short then None
    else
      var rest := data[Short..];
      var n := AtMost(rest, Unpack(data[..Short]));
      match Loads(rest[n..])
      case None => None
      case Some(chunks) => Some([rest[..n]] + chunks)
  }

  /** Any list of chunks within the field bounds is recovered. */
  lemma {:induction false} ChunksRoundTrip(chunks: seq<seq<Byte>>)
    requires forall i :: 0 <= i < |chunks| ==> |chunks[i]| < Power(Short)
    ensures Loads(Dumps(chunks)) == Some(chunks)
  {
    if chunks != [] {
      var c, others := chunks[0], Dumps(chunks[1..]);
      var data := Dumps(chunks);
      assert data == Pack(|c|, Short) + (c + others);
      PackRoundTrip(|c|, Short);
      assert data[..Short] == Pack(|c|, Short) && data[Short..] == c + others;
      assert (c + others)[..|c|] == c && (c + others)[|c|..] == others;
      ChunksRoundTrip(chunks[1..]);
      assert chunks == [c] + chunks[1..];
    }
  }

  lemma {:induction false} DumpsConcat(a: seq<seq<Byte>>, b: seq<seq<Byte>>)
    ensures Dumps(a + b) == Dumps(a) + Dumps(b)
  {
    if a == [] {
      assert a + b == b;
    } else {
      assert (a + b)[1..] == a[1..] + b;
      DumpsConcat(a[1..], b);
    }
  }

  lemma DumpsNext(chunks: seq<seq<Byte>>, i: nat)
    requires i < |chunks|
    ensures Dumps(chunks[..i + 1]) == Dumps(chunks[..i]) + Pack(|chunks[i]|, Short) + chunks[i]
  {
    assert chunks[..i + 1] == chunks[..i] + [chunks[i]];
    DumpsConcat(chunks[..i], [chunks[i]]);
    assert Dumps([chunks[i]]) == Field(chunks[i], Short) + Dumps([]);
  }

  method WriteAll(chunks: seq<seq<Byte>>) returns (file: seq<Byte>)
    requires forall i :: 0 <= i < |chunks| ==> |chunks[i]| < Power(Short)
    ensures file == Dumps(chunks)
  {
    file := [];
    var i := 0;
    while i < |chunks|
      invariant 0 <= i <= |chunks| && file == Dumps(chunks[..i])
    {
      DumpsNext(chunks, i);
      file := file + Pack(|chunks[i]|, Short) + chunks[i];
      i := i + 1;
    }
    assert chunks[..i] == chunks;
  }

  /** The position moves over lengths and chunks alternately. */
  method LoadChunks(data: seq<Byte>) returns (r: Option<seq<seq<Byte>>>)
    ensures r == Loads(data)
  {
    var chunks: seq<seq<Byte>> := [];
    var pos := 0;
    assert data[0..] == data;
    PrependedNone(Loads(data));
    while pos < |data|
      invariant 0 <= pos
      invariant Loads(data) == Prepended(chunks, Loads(data[AtMost(data, pos)..]))
      decreases |data| - pos
    {
      var rest := data[pos..];
      if |rest| < Short {
        return None;
      }
      LoadsNext(chunks, rest);
      var size := Unpack(rest[..Short]);
      pos := pos + Short;
      DropTwice(data, pos - Short, Short);
      DropTwice(data, pos, size);
      chunks := chunks + [data[pos..][..AtMost(data[pos..], size)]];
      pos := pos + size;
    }
    assert data[AtMost(data, pos)..] == [] && chunks + [] == chunks;
    return Some(chunks);
  }

  function Prepended(chunks: seq<seq<Byte>>, rest: Option<seq<seq<Byte>>>): Option<seq<seq<Byte>>> {
    match rest
    case None => None
    case Some(more) => Some(chunks + more)
  }

  lemma PrependedNone(rest: Option<seq<seq<Byte>>>)
    ensures Prepended([], rest) == rest
  {
    if rest.Some? {
      assert [] + rest.value == rest.value;
    }
  }

  lemma DropTwice(data: seq<Byte>, pos: nat, n: nat)
    requires pos <= |data|
    ensures data[pos..][AtMost(data[pos..], n)..] == data[AtMost(data, pos + n)..]
  {
  }

  lemma LoadsNext(chunks: seq<seq<Byte>>, rest: seq<Byte>)
    requires |rest| >= Short
    ensures var more := rest[Short..];
      var n := AtMost(more, Unpack(rest[..Short]));
      Prepended(chunks, Loads(rest)) == Prepended(chunks + [more[..n]], Loads(more[n..]))
  {
    var more := rest[Short..];
    var n := AtMost(more, Unpack(rest[..Short]));
    assert Loads(rest) == Prepended([more[..n]], Loads(more[n..]));
    PrependedOnce(chunks, more[..n], Loads(more[n..]));
  }

  lemma PrependedOnce(chunks: seq<seq<Byte>>, chunk: seq<Byte>, rest: Option<seq<seq<Byte>>>)
    ensures Prepended(chunks, Prepended([chunk], rest)) == Prepended(chunks + [chunk], rest)
  {
    if rest.Some? {
      assert chunks + ([chunk] + rest.value) == chunks + [chunk] + rest.value;
    }
  }
}
