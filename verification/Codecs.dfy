/** There are codecs as the spool needs them: a manifest can be written as bytes without loss. */
module Codecs {
  import opened Options
  import opened Ids
  import opened Payload

  /** Values written one after the other can be told apart. */
  ghost predicate Readable<T(!new)>(write: T -> seq<byte>) {
    forall a, b, x, y :: write(a) + x == write(b) + y ==> a == b && x == y
  }

  lemma Reads<T(!new)>(write: T -> seq<byte>, a: T, b: T, x: seq<byte>, y: seq<byte>)
    requires Readable(write) && write(a) + x == write(b) + y
    ensures a == b && x == y
  {}

  function Count(n: nat): seq<byte> { seq(n, _ => 1) + [0] }

  lemma CountReads(m: nat, n: nat, x: seq<byte>, y: seq<byte>)
    requires Count(m) + x == Count(n) + y
    ensures m == n && x == y
  {
    var u, v := Count(m) + x, Count(n) + y;
    assert u[m] == 0 && v[n] == 0;
    assert forall i | 0 <= i < m :: u[i] == 1;
    assert forall i | 0 <= i < n :: v[i] == 1;
    assert x == u[m + 1..] && y == v[n + 1..];
  }

  function Number(i: int): seq<byte> { if i < 0 then [1] + Count(-i) else [0] + Count(i) }

  lemma NumberReads()
    ensures Readable(Number)
  {
    forall a, b, x, y | Number(a) + x == Number(b) + y ensures a == b && x == y {
      var m: nat, n: nat := if a < 0 then -a else a, if b < 0 then -b else b;
      assert (Number(a) + x)[0] == (Number(b) + y)[0];
      assert (Number(a) + x)[1..] == Count(m) + x && (Number(b) + y)[1..] == Count(n) + y;
      CountReads(m, n, x, y);
    }
  }

  function Items<T>(write: T -> seq<byte>, s: seq<T>): seq<byte> {
    if s == [] then [] else write(s[0]) + Items(write, s[1..])
  }

  function List<T>(write: T -> seq<byte>): seq<T> -> seq<byte> { s => Count(|s|) + Items(write, s) }

  lemma {:induction false} ItemsRead<T(!new)>(write: T -> seq<byte>, s: seq<T>, t: seq<T>, x: seq<byte>, y: seq<byte>)
    requires Readable(write) && |s| == |t| && Items(write, s) + x == Items(write, t) + y
    ensures s == t && x == y
    decreases |s|
  {
    if s == [] {
      assert [] + x == x && [] + y == y;
    } else {
      var u, v := Items(write, s[1..]) + x, Items(write, t[1..]) + y;
      assert write(s[0]) + u == Items(write, s) + x && write(t[0]) + v == Items(write, t) + y;
      Reads(write, s[0], t[0], u, v);
      ItemsRead(write, s[1..], t[1..], x, y);
      assert s == [s[0]] + s[1..] && t == [t[0]] + t[1..];
    }
  }

  lemma ListReads<T(!new)>(write: T -> seq<byte>)
    requires Readable(write)
    ensures Readable(List(write))
  {
    forall s: seq<T>, t: seq<T>, x, y | List(write)(s) + x == List(write)(t) + y ensures s == t && x == y {
      var u, v := Items(write, s) + x, Items(write, t) + y;
      assert List(write)(s) + x == Count(|s|) + u && List(write)(t) + y == Count(|t|) + v;
      CountReads(|s|, |t|, u, v);
      ItemsRead(write, s, t, x, y);
    }
  }

  function Letter(c: char): seq<byte> { Count(c as int) }

  lemma LetterReads()
    ensures Readable(Letter)
  {
    forall a, b, x, y | Letter(a) + x == Letter(b) + y ensures a == b && x == y {
      CountReads(a as int, b as int, x, y);
    }
  }

  function Text(s: string): seq<byte> { List(Letter)(s) }

  lemma TextReads()
    ensures Readable(Text)
  {
    hide List, Letter;
    LetterReads();
    ListReads(Letter);
    forall a, b, x, y | Text(a) + x == Text(b) + y ensures a == b && x == y { Reads(List(Letter), a, b, x, y); }
  }

  function Ref(r: AttachmentRef): seq<byte> {
    List(Text)([r.filename, r.contentType, r.path, r.sha256]) + Number(r.size)
  }

  lemma RefReads()
    ensures Readable(Ref)
  {
    hide List, Text, Number;
    TextReads();
    ListReads(Text);
    NumberReads();
    forall a, b, x, y | Ref(a) + x == Ref(b) + y ensures a == b && x == y {
      var s, t := [a.filename, a.contentType, a.path, a.sha256], [b.filename, b.contentType, b.path, b.sha256];
      var u, v := Number(a.size) + x, Number(b.size) + y;
      assert Ref(a) + x == List(Text)(s) + u && Ref(b) + y == List(Text)(t) + v;
      Reads(List(Text), s, t, u, v);
      Reads(Number, a.size, b.size, x, y);
      assert s[0] == t[0] && s[1] == t[1] && s[2] == t[2] && s[3] == t[3];
    }
  }

  function Fields(m: Manifest): seq<string> { [m.envelopeFrom, m.headerFrom, m.subject, m.textBody, m.htmlBody] }

  function Marshal(m: Manifest): seq<byte> {
    List(Text)(Fields(m)) + (List(Text)(m.replyTo) + (List(Text)(m.to) + (List(Ref)(m.attachments) + [])))
  }

  lemma MarshalReads(m: Manifest, n: Manifest)
    requires Marshal(m) == Marshal(n)
    ensures m == n
  {
    hide List, Text, Ref;
    TextReads();
    RefReads();
    ListReads(Text);
    ListReads(Ref);
    Reads(List(Text), Fields(m), Fields(n),
          List(Text)(m.replyTo) + (List(Text)(m.to) + (List(Ref)(m.attachments) + [])),
          List(Text)(n.replyTo) + (List(Text)(n.to) + (List(Ref)(n.attachments) + [])));
    Reads(List(Text), m.replyTo, n.replyTo, List(Text)(m.to) + (List(Ref)(m.attachments) + []),
          List(Text)(n.to) + (List(Ref)(n.attachments) + []));
    Reads(List(Text), m.to, n.to, List(Ref)(m.attachments) + [], List(Ref)(n.attachments) + []);
    Reads(List(Ref), m.attachments, n.attachments, [], []);
    assert Fields(m)[0] == Fields(n)[0] && Fields(m)[1] == Fields(n)[1] && Fields(m)[2] == Fields(n)[2];
    assert Fields(m)[3] == Fields(n)[3] && Fields(m)[4] == Fields(n)[4];
  }

  ghost function Unmarshal(data: seq<byte>): Option<Manifest> {
    if exists m :: Marshal(m) == data then var m :| Marshal(m) == data; Some(m) else None
  }

  /** So what is said about faithful codecs is said about something. */
  lemma FaithfulCodecExists() returns (c: Codec)
    ensures c.Faithful()
  {
    c := Codec(Marshal, data => Unmarshal(data), data => seq(32, _ => 0));
    forall m: Manifest ensures c.unmarshal(c.marshal(m)) == Some(m) {
      assert Marshal(m) == c.marshal(m);
      var n := Unmarshal(Marshal(m)).value;
      MarshalReads(m, n);
    }
  }
}
