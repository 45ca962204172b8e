/** The bytes of the consensus messages (examples/paxos.rs). */
module PaxosCodec {
  import opened Wrappers
  import opened Words
  import opened Buffers
  import opened Paxos

  /** `From<Message> for Vec<u8>`. */
  function Encoded(m: Message): seq<byte> {
    match m
    case Request(v) => Put(1, 1) + Put(v, 8)
    case Prepare(n) => Put(2, 1) + Put(n, 8)
    case Promise(n) => Put(3, 1) + Put(n, 8)
    case Ignored(n) => Put(4, 1) + Put(n, 8)
    case Accept(n, v) => Put(5, 1) + Put(n, 8) + Put(v, 8)
    case Accepted(n, v) => Put(6, 1) + Put(n, 8) + Put(v, 8)
    case Rejected(n) => Put(7, 1) + Put(n, 8)
    case Selected(n, v) => Put(8, 1) + Put(n, 8) + Put(v, 8)
    case Empty => Put(0, 1)
  }

  /** `From<Vec<u8>> for Message`; `None` stands for the panic on too few bytes.  Bytes too many are ignored. */
  function Decoded(b: seq<byte>): Option<Message> {
    var op := Number(b, 1);
    if op.None? then None
    else if !(1 <= op.value <= 8) then Some(Empty)
    else
      var first := Number(b[1..], 8);
      if first.None? then None
      else
        Widths();
        var n: u64 := first.value;
        match op.value
        case 1 => Some(Request(n))
        case 2 => Some(Prepare(n))
        case 3 => Some(Promise(n))
        case 4 => Some(Ignored(n))
        case 7 => Some(Rejected(n))
        case _ =>
          var second := Number(b[9..], 8);
          if second.None? then None
          else
            var v: u64 := second.value;
            match op.value
            case 5 => Some(Accept(n, v))
            case 6 => Some(Accepted(n, v))
            case _ => Some(Selected(n, v))
  }

  method Encode(m: Message) returns (b: seq<byte>)
    ensures b == Encoded(m)
  {
    hide Put;
    var buf := new Writer();
    match m {
      case Request(v) =>
        buf.PutNumber(1, 1);
        buf.PutNumber(v, 8);
      case Prepare(n) =>
        buf.PutNumber(2, 1);
        buf.PutNumber(n, 8);
      case Promise(n) =>
        buf.PutNumber(3, 1);
        buf.PutNumber(n, 8);
      case Ignored(n) =>
        buf.PutNumber(4, 1);
        buf.PutNumber(n, 8);
      case Accept(n, v) =>
        buf.PutNumber(5, 1);
        buf.PutNumber(n, 8);
        buf.PutNumber(v, 8);
      case Accepted(n, v) =>
        buf.PutNumber(6, 1);
        buf.PutNumber(n, 8);
        buf.PutNumber(v, 8);
      case Rejected(n) =>
        buf.PutNumber(7, 1);
        buf.PutNumber(n, 8);
      case Selected(n, v) =>
        buf.PutNumber(8, 1);
        buf.PutNumber(n, 8);
        buf.PutNumber(v, 8);
      case Empty =>
        buf.PutNumber(0, 1);
    }
    b := buf.bytes;
  }

  method Decode(b: seq<byte>) returns (m: Option<Message>)
    ensures m == Decoded(b)
  {
    hide Get;
    Widths();
    var buf := new Reader(b);
    var op := buf.GetNumber(1);
    if op.None? {
      return None;
    }
    if !(1 <= op.value <= 8) {
      return Some(Empty);
    }
    var first := buf.GetNumber(8);
    if first.None? {
      return None;
    }
    var n: u64 := first.value;
    match op.value {
      case 1 => return Some(Request(n));
      case 2 => return Some(Prepare(n));
      case 3 => return Some(Promise(n));
      case 4 => return Some(Ignored(n));
      case 7 => return Some(Rejected(n));
      case _ =>
    }
    assert b[1..][8..] == b[9..];
    var second := buf.GetNumber(8);
    if second.None? {
      return None;
    }
    var v: u64 := second.value;
    match op.value {
      case 5 => return Some(Accept(n, v));
      case 6 => return Some(Accepted(n, v));
      case _ => return Some(Selected(n, v));
    }
  }

  lemma TwoNumbers(op: nat, n: u64, rest: seq<byte>)
    requires op < 256
    ensures var b := Put(op, 1) + Put(n, 8) + rest;
            Number(b, 1) == Some(op) && Number(b[1..], 8) == Some(n) && b[9..] == rest && b[1..][8..] == rest
  {
    Widths();
    var b := Put(op, 1) + Put(n, 8) + rest;
    assert b == Put(op, 1) + (Put(n, 8) + rest);
    NumberFirst(op, 1, Put(n, 8) + rest);
    NumberFirst(n, 8, rest);
    assert b[9..] == b[1..][8..];
  }

  /** Decoding undoes encoding, for every message, whatever follows it. */
  lemma DecodeEncoded(m: Message, rest: seq<byte>)
    ensures Decoded(Encoded(m) + rest) == Some(m)
  {
    hide Put, Number;
    match m
    case Empty =>
      Widths();
      NumberFirst(0, 1, rest);
    case Request(v) => TwoNumbers(1, v, rest);
    case Prepare(n) => TwoNumbers(2, n, rest);
    case Promise(n) => TwoNumbers(3, n, rest);
    case Ignored(n) => TwoNumbers(4, n, rest);
    case Rejected(n) => TwoNumbers(7, n, rest);
    case Accept(n, v) => ThreeNumbers(5, n, v, rest);
    case Accepted(n, v) => ThreeNumbers(6, n, v, rest);
    case Selected(n, v) => ThreeNumbers(8, n, v, rest);
  }

  lemma ThreeNumbers(op: nat, n: u64, v: u64, rest: seq<byte>)
    requires op < 256
    ensures var b := Put(op, 1) + Put(n, 8) + Put(v, 8) + rest;
            Number(b, 1) == Some(op) && Number(b[1..], 8) == Some(n) && Number(b[9..], 8) == Some(v)
  {
    Widths();
    var b := Put(op, 1) + Put(n, 8) + Put(v, 8) + rest;
    assert b == Put(op, 1) + Put(n, 8) + (Put(v, 8) + rest);
    TwoNumbers(op, n, Put(v, 8) + rest);
    NumberFirst(v, 8, rest);
  }

  /** So different messages have different bytes, and none is the beginning of another. */
  lemma NoPrefix(m: Message, m': Message)
    requires Encoded(m) <= Encoded(m')
    ensures m == m'
  {
    hide Encoded, Decoded;
    var rest := Encoded(m')[|Encoded(m)|..];
    assert Encoded(m') == Encoded(m) + rest;
    DecodeEncoded(m, rest);
    DecodeEncoded(m', []);
    assert Encoded(m') + [] == Encoded(m');
  }

  /** The first byte of each message. */
  function Op(m: Message): nat {
    match m
    case Empty => 0
    case Request(_) => 1
    case Prepare(_) => 2
    case Promise(_) => 3
    case Ignored(_) => 4
    case Accept(_, _) => 5
    case Accepted(_, _) => 6
    case Rejected(_) => 7
    case Selected(_, _) => 8
  }

  /** Where everything is: the kind of the message, then its number, then its value, eight bytes each. */
  lemma Layout(m: Message)
    ensures var b := Encoded(m);
            && |b| == (if m.Empty? then 1 else if m.Accept? || m.Accepted? || m.Selected? then 17 else 9)
            && b[0] == Op(m)
            && (m.Request? ==> Get(b[1..9]) == m.val)
            && (!m.Request? && !m.Empty? ==> Get(b[1..9]) == m.number)
            && (|b| == 17 ==> Get(b[9..17]) == m.val)
  {
    hide Put, Get;
    Widths();
    OneByte(Op(m));
    var b := Encoded(m);
    if !m.Empty? {
      var n := if m.Request? then m.val else m.number;
      GetPut(n, 8);
      assert b[1..9] == Put(n, 8);
      if |b| == 17 {
        GetPut(m.val, 8);
        assert b[9..17] == Put(m.val, 8);
      }
    }
  }

  lemma OneByte(n: nat)
    requires n < 256
    ensures Put(n, 1) == [n]
  {
    assert Put(n / 256, 0) == [];
  }

  /** A message that is cut short anywhere does not decode: reading it panics. */
  lemma CutShort(m: Message, k: nat)
    requires k < |Encoded(m)|
    ensures Decoded(Encoded(m)[..k]) == None
  {
    hide Put, Get;
    Layout(m);
    var b := Encoded(m)[..k];
    if k > 0 {
      FirstByte(b);
    }
  }

  lemma FirstByte(b: seq<byte>)
    requires b != []
    ensures Number(b, 1) == Some(b[0])
  {
    assert b[..1] == [b[0]];
    assert [b[0]][..0] == [];
    assert Get([b[0]]) == b[0];
  }

  /** An unknown first byte is read as an empty message, whatever follows. */
  lemma UnknownIsEmpty(b: seq<byte>)
    requires b != [] && (b[0] == 0 || b[0] > 8)
    ensures Decoded(b) == Some(Empty)
  {
    hide Get;
    FirstByte(b);
  }
}
