/** Messages of lab4 (message.c): the 16-bit hash and the generator. */
module Messages {

  type byte = x: int | 0 <= x < 0x100
  type uint16 = x: int | 0 <= x < 0x1_0000

  const MAX_DATA_SIZE: nat := 256

  type Data = s: seq<byte> | |s| == MAX_DATA_SIZE witness seq(MAX_DATA_SIZE, i => 0)

  datatype Message = Message(kind: byte, hash: uint16, size: byte, data: Data)

  function Sum(data: seq<byte>, n: nat): nat
    requires n <= |data|
  {
    if n == 0 then 0 else Sum(data, n - 1) + data[n - 1]
  }

  // The sum the hash stands for, taken without a bound.
  function TrueHash(m: Message): nat {
    m.kind + Sum(m.data, m.size)
  }

  // The consumer's test.
  predicate PassesCheck(m: Message) {
    m.hash == TrueHash(m)
  }

  lemma {:induction false} SumBound(data: seq<byte>, n: nat)
    requires n <= |data|
    ensures Sum(data, n) <= 255 * n
  {
    if n > 0 {
      SumBound(data, n - 1);
    }
  }

  // No partial sum of a message's bytes reaches the range of uint16_t; the largest is 65280.
  lemma {:induction false} HashFits(m: Message, i: nat)
    requires i <= m.size
    ensures m.kind + Sum(m.data, i) <= 65280
  {
    SumBound(m.data, i);
  }

  // hash += x on a uint16_t
  function Add16(hash: uint16, x: byte): uint16 {
    (hash + x) % 0x1_0000
  }

  // The accumulation never wraps.
  method CalculateHash(m: Message) returns (hash: uint16)
    ensures hash == TrueHash(m) <= 65280
  {
    hash := 0;
    hash := Add16(hash, m.kind);
    var i: nat := 0;
    while i < m.size
      invariant i <= m.size && hash == m.kind + Sum(m.data, i)
    {
      HashFits(m, i + 1);
      hash := Add16(hash, m.data[i]);
      i := i + 1;
    }
    HashFits(m, i);
  }

  // The values of rand() are arbitrary; msg is what the structure held before.
  method GenerateMessage(msg: Message, kind: nat, size: nat, bytes: seq<nat>) returns (m: Message)
    requires |bytes| >= size % 256
    ensures PassesCheck(m) && m.kind == kind % 256 && m.size == size % 256
    ensures m.size == 0 ==> forall i :: 0 <= i < MAX_DATA_SIZE ==> m.data[i] == 0
    ensures m.size > 0 ==> forall i :: 0 <= i < MAX_DATA_SIZE ==> m.data[i] == if i < m.size then bytes[i] % 256 else msg.data[i]
  {
    m := msg.(kind := kind % 256, size := size % 256);
    if m.size == 0 {
      m := m.(data := seq(MAX_DATA_SIZE, i => 0));
    } else {
      var i: nat := 0;
      while i < m.size
        invariant i <= m.size == size % 256 && m.kind == kind % 256
        invariant forall j :: 0 <= j < MAX_DATA_SIZE ==> m.data[j] == if j < i then bytes[j] % 256 else msg.data[j]
      {
        m := m.(data := m.data[i := bytes[i] % 256]);
        i := i + 1;
      }
    }
    m := m.(hash := 0);
    var hash := CalculateHash(m);
    m := m.(hash := hash);
  }
}
