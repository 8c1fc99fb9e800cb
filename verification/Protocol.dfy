/** Constants and the message type of the QDB protocol, and operations on
    sequences of messages (a queue or a wire). */
module Protocol {
  type byte = b: int | 0 <= b < 256
  type Bytes = seq<byte>

  const HEADER_SIZE := 16
  const MESSAGE_SIZE := 16 * 1024
  const MAX_PAYLOAD := MESSAGE_SIZE - HEADER_SIZE
  const VERSION := 1
  const TWO_32 := 0x1_0000_0000
  const INT_MAX := 0x7FFF_FFFF

  datatype Option<+T> = None | Some(value: T)

  datatype Command = Invalid | Connect | Refuse | Open | Write | Close | Ok

  datatype Message = Message(command: Command, host: nat, dev: nat, data: Bytes)

  datatype RefuseReason = InvalidReason | NotConnected | UnknownVersion

  /** A quint32 as QDataStream writes it. */
  function BigEndian(n: nat): (b: Bytes)
    requires n < TWO_32
    ensures |b| == 4
  {
    [n / 0x100_0000, n / 0x1_0000 % 256, n / 256 % 256, n % 256]
  }

  /** A quint32 as QDataStream reads it: a short buffer yields 0. */
  function ReadUint32(b: Bytes): (n: nat)
    ensures n < TWO_32
  {
    if |b| < 4 then 0
    else (b[0] as int) * 0x100_0000 + (b[1] as int) * 0x1_0000 + (b[2] as int) * 256 + (b[3] as int)
  }

  lemma ReadBigEndian(n: nat, rest: Bytes)
    requires n < TWO_32
    ensures ReadUint32(BigEndian(n) + rest) == n
  {
    var b := BigEndian(n) + rest;
    assert b[0] == n / 0x100_0000 && b[1] == n / 0x1_0000 % 256 && b[2] == n / 256 % 256 && b[3] == n % 256;
    assert n / 0x100_0000 == n / 0x1_0000 / 256 && n / 0x1_0000 == n / 256 / 256;
  }

  /** The version check that both sides make on a Connect payload. */
  predicate VersionMatches(data: Bytes) {
    |data| >= 4 && ReadUint32(data) == VERSION
  }

  function ConnectMessage(): (m: Message)
    ensures m.command == Connect && VersionMatches(m.data)
  {
    ReadBigEndian(VERSION, []);
    assert BigEndian(VERSION) + [] == BigEndian(VERSION);
    Message(Connect, 0, 0, BigEndian(VERSION))
  }

  function RefuseMessage(reason: RefuseReason): Message {
    match reason
    case InvalidReason => Message(Refuse, 0, 0, BigEndian(0))
    case NotConnected => Message(Refuse, 0, 0, BigEndian(1))
    case UnknownVersion => Message(Refuse, 0, 0, BigEndian(2) + BigEndian(VERSION))
  }

  function ToRefuseReason(n: nat): RefuseReason {
    if n == 1 then NotConnected else if n == 2 then UnknownVersion else InvalidReason
  }

  function CloseMessage(host: nat, dev: nat): Message {
    Message(Close, host, dev, [])
  }

  function OkMessage(host: nat, dev: nat): Message {
    Message(Ok, host, dev, [])
  }

  lemma Associative<T>(a: seq<T>, b: seq<T>, c: seq<T>)
    ensures (a + b) + c == a + (b + c)
  {
  }

  ghost predicate Distinct<T>(s: seq<T>) {
    forall i, k :: 0 <= i < k < |s| ==> s[i] != s[k]
  }

  lemma DistinctGrows<T>(s: seq<T>, x: T)
    requires Distinct(s) && x !in s
    ensures Distinct(s + [x])
  {
  }

  /** Number of messages in `s` whose command is one of `kinds`. */
  function Count(s: seq<Message>, kinds: set<Command>): nat {
    if s == [] then 0
    else (if s[0].command in kinds then 1 else 0) + Count(s[1..], kinds)
  }

  lemma {:induction false} CountAppend(s: seq<Message>, t: seq<Message>, kinds: set<Command>)
    ensures Count(s + t, kinds) == Count(s, kinds) + Count(t, kinds)
  {
    if s == [] {
      assert s + t == t;
    } else {
      assert (s + t)[1..] == s[1..] + t;
      CountAppend(s[1..], t, kinds);
    }
  }

  lemma {:induction false} CountZero(s: seq<Message>, kinds: set<Command>)
    ensures Count(s, kinds) == 0 <==> forall m :: m in s ==> m.command !in kinds
  {
    if s != [] {
      CountZero(s[1..], kinds);
      assert forall m :: m in s <==> m == s[0] || m in s[1..];
    }
  }

  /** The host ids of the Open messages in `s`. */
  function OpenIds(s: seq<Message>): (ids: set<nat>)
    ensures forall m :: m in s && m.command == Open ==> m.host in ids
  {
    if s == [] then {}
    else (if s[0].command == Open then {s[0].host} else {}) + OpenIds(s[1..])
  }

  lemma {:induction false} OpenIdsAppend(s: seq<Message>, t: seq<Message>)
    ensures OpenIds(s + t) == OpenIds(s) + OpenIds(t)
  {
    if s == [] {
      assert s + t == t;
    } else {
      assert (s + t)[1..] == s[1..] + t;
      OpenIdsAppend(s[1..], t);
    }
  }

  /** No host id is requested twice. */
  predicate DistinctOpens(s: seq<Message>) {
    s == [] || ((s[0].command == Open ==> s[0].host !in OpenIds(s[1..])) && DistinctOpens(s[1..]))
  }

  lemma {:induction false} DistinctOpensAppend(s: seq<Message>, t: seq<Message>)
    ensures DistinctOpens(s + t) <==> DistinctOpens(s) && DistinctOpens(t) && OpenIds(s) !! OpenIds(t)
  {
    if s == [] {
      assert s + t == t;
    } else {
      assert (s + t)[1..] == s[1..] + t;
      DistinctOpensAppend(s[1..], t);
      OpenIdsAppend(s[1..], t);
    }
  }

  /** The payloads of the Write messages for device stream `dev`, in order. */
  function Payloads(s: seq<Message>, dev: nat): seq<Bytes> {
    if s == [] then []
    else (if s[0].command == Write && s[0].dev == dev then [s[0].data] else []) + Payloads(s[1..], dev)
  }

  lemma {:induction false} PayloadsAppend(s: seq<Message>, t: seq<Message>, dev: nat)
    ensures Payloads(s + t, dev) == Payloads(s, dev) + Payloads(t, dev)
  {
    if s == [] {
      assert s + t == t;
    } else {
      assert (s + t)[1..] == s[1..] + t;
      PayloadsAppend(s[1..], t, dev);
    }
  }

  lemma {:induction false} PayloadsEmpty(s: seq<Message>, dev: nat)
    ensures Payloads(s, dev) == [] <==> forall m :: m in s && m.command == Write ==> m.dev != dev
  {
    if s != [] {
      PayloadsEmpty(s[1..], dev);
      assert forall m :: m in s <==> m == s[0] || m in s[1..];
    }
  }

  /** The Write messages that carry `fragments` on one stream. */
  function WriteMessages(host: nat, dev: nat, fragments: seq<Bytes>): (s: seq<Message>)
    ensures |s| == |fragments|
    ensures forall i :: 0 <= i < |s| ==> s[i] == Message(Write, host, dev, fragments[i])
  {
    if fragments == [] then []
    else [Message(Write, host, dev, fragments[0])] + WriteMessages(host, dev, fragments[1..])
  }

  lemma {:induction false} PayloadsOfWrites(host: nat, dev: nat, fragments: seq<Bytes>, other: nat)
    ensures Payloads(WriteMessages(host, dev, fragments), other) == if other == dev then fragments else []
    ensures forall kinds :: Write !in kinds ==> Count(WriteMessages(host, dev, fragments), kinds) == 0
  {
    if fragments != [] {
      PayloadsOfWrites(host, dev, fragments[1..], other);
    }
  }

  /** A queue without the messages of host stream `host`. */
  function WithoutHost(s: seq<Message>, host: nat): (r: seq<Message>)
    ensures forall m :: m in r <==> m in s && m.host != host
  {
    if s == [] then []
    else (if s[0].host == host then [] else [s[0]]) + WithoutHost(s[1..], host)
  }

  /** A queue without the messages of device stream `dev`. */
  function WithoutDev(s: seq<Message>, dev: nat): (r: seq<Message>)
    ensures forall m :: m in r <==> m in s && m.dev != dev
  {
    if s == [] then []
    else (if s[0].dev == dev then [] else [s[0]]) + WithoutDev(s[1..], dev)
  }

  /** What is left of a queue stays in its order, and nothing is lost but the messages
      of that stream. */
  lemma {:induction false} WithoutHostAppend(s: seq<Message>, t: seq<Message>, host: nat)
    ensures WithoutHost(s + t, host) == WithoutHost(s, host) + WithoutHost(t, host)
    ensures forall m :: WithoutHost([m], host) == if m.host == host then [] else [m]
  {
    if s == [] {
      assert s + t == t;
    } else {
      assert (s + t)[1..] == s[1..] + t;
      WithoutHostAppend(s[1..], t, host);
      Associative(if s[0].host == host then [] else [s[0]], WithoutHost(s[1..], host), WithoutHost(t, host));
    }
  }

  lemma {:induction false} WithoutDevAppend(s: seq<Message>, t: seq<Message>, dev: nat)
    ensures WithoutDev(s + t, dev) == WithoutDev(s, dev) + WithoutDev(t, dev)
    ensures forall m :: WithoutDev([m], dev) == if m.dev == dev then [] else [m]
  {
    if s == [] {
      assert s + t == t;
    } else {
      assert (s + t)[1..] == s[1..] + t;
      WithoutDevAppend(s[1..], t, dev);
      Associative(if s[0].dev == dev then [] else [s[0]], WithoutDev(s[1..], dev), WithoutDev(t, dev));
    }
  }

  lemma {:induction false} PayloadsWithoutHost(s: seq<Message>, host: nat, dev: nat)
    requires forall m :: m in s && m.command == Write && m.dev == dev ==> m.host != host
    ensures Payloads(WithoutHost(s, host), dev) == Payloads(s, dev)
  {
    if s != [] {
      PayloadsWithoutHost(s[1..], host, dev);
      assert s[0] in s;
      var rest := WithoutHost(s[1..], host);
      if s[0].host != host {
        assert ([s[0]] + rest)[1..] == rest;
      } else {
        assert [] + rest == rest;
      }
    }
  }

  lemma {:induction false} PayloadsWithoutDev(s: seq<Message>, gone: nat, dev: nat)
    requires gone != dev
    ensures Payloads(WithoutDev(s, gone), dev) == Payloads(s, dev)
  {
    if s != [] {
      PayloadsWithoutDev(s[1..], gone, dev);
      var rest := WithoutDev(s[1..], gone);
      if s[0].dev != gone {
        assert ([s[0]] + rest)[1..] == rest;
      } else {
        assert [] + rest == rest;
      }
    }
  }

  lemma {:induction false} OpensWithoutHost(s: seq<Message>, host: nat)
    ensures OpenIds(WithoutHost(s, host)) == OpenIds(s) - {host}
    ensures DistinctOpens(s) ==> DistinctOpens(WithoutHost(s, host))
  {
    if s != [] {
      OpensWithoutHost(s[1..], host);
      var rest := WithoutHost(s[1..], host);
      if s[0].host != host {
        assert ([s[0]] + rest)[1..] == rest;
      } else {
        assert [] + rest == rest;
      }
    }
  }

  lemma {:induction false} CountWithoutHost(s: seq<Message>, host: nat, kinds: set<Command>)
    ensures Count(WithoutHost(s, host), kinds) <= Count(s, kinds)
  {
    if s != [] {
      CountWithoutHost(s[1..], host, kinds);
      var rest := WithoutHost(s[1..], host);
      if s[0].host != host {
        assert ([s[0]] + rest)[1..] == rest;
      } else {
        assert [] + rest == rest;
      }
    }
  }

  lemma {:induction false} CountWithoutDev(s: seq<Message>, dev: nat, kinds: set<Command>)
    ensures Count(WithoutDev(s, dev), kinds) <= Count(s, kinds)
  {
    if s != [] {
      CountWithoutDev(s[1..], dev, kinds);
      var rest := WithoutDev(s[1..], dev);
      if s[0].dev != dev {
        assert ([s[0]] + rest)[1..] == rest;
      } else {
        assert [] + rest == rest;
      }
    }
  }
}
