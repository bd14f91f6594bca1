/** A codec that is lawful: each chunk is a word of its own, in unary. It shows that the hypothesis of
    the theorems about encoded streams can be met; JSON is another codec that meets it. */
module UnaryCodec {
  import opened Wrappers
  import opened Text
  import opened Sse
  import opened Claude

  // ---- words ------------------------------------------------------------------

  function Digits(n: nat): (r: string)
    ensures r != ""
  {
    if n == 0 then "," else "a" + Digits(n - 1)
  }

  lemma {:induction false} DigitsApart(m: nat, n: nat, r: string, s: string)
    requires Digits(m) + r == Digits(n) + s
    ensures m == n && r == s
  {
    assert (Digits(m) + r)[0] == Digits(m)[0] && (Digits(n) + s)[0] == Digits(n)[0];
    if m == 0 || n == 0 {
      assert r == (Digits(m) + r)[1..] && s == (Digits(n) + s)[1..];
    } else {
      assert (Digits(m) + r)[1..] == Digits(m - 1) + r;
      assert (Digits(n) + s)[1..] == Digits(n - 1) + s;
      DigitsApart(m - 1, n - 1, r, s);
    }
  }

  function Word(code: seq<nat>): string {
    if code == [] then "" else Digits(code[0]) + Word(code[1..])
  }

  lemma {:induction false} WordApart(a: seq<nat>, b: seq<nat>)
    requires Word(a) == Word(b)
    ensures a == b
  {
    if a != [] && b != [] {
      DigitsApart(a[0], b[0], Word(a[1..]), Word(b[1..]));
      WordApart(a[1..], b[1..]);
      assert a == [a[0]] + a[1..] && b == [b[0]] + b[1..];
    }
  }

  lemma {:induction false} WordIsPlain(code: seq<nat>)
    ensures forall c <- Word(code) :: c == 'a' || c == ','
  {
    if code != [] {
      DigitsArePlain(code[0]);
      WordIsPlain(code[1..]);
    }
  }

  lemma {:induction false} DigitsArePlain(n: nat)
    ensures forall c <- Digits(n) :: c == 'a' || c == ','
  {
    if n > 0 {
      DigitsArePlain(n - 1);
    }
  }

  // ---- codes, each of which shows its own end -------------------------------------

  lemma HeadTail(x: nat, y: nat, s: seq<nat>, t: seq<nat>)
    requires [x] + s == [y] + t
    ensures x == y && s == t
  {
    assert ([x] + s)[0] == x && ([y] + t)[0] == y;
    assert ([x] + s)[1..] == s && ([y] + t)[1..] == t;
  }

  function StringCode(s: string): seq<nat> {
    if s == "" then [0] else [s[0] as nat + 1] + StringCode(s[1..])
  }

  lemma {:induction false} StringsApart(s: string, t: string, r: seq<nat>, q: seq<nat>)
    requires StringCode(s) + r == StringCode(t) + q
    ensures s == t && r == q
  {
    assert (StringCode(s) + r)[0] == StringCode(s)[0] && (StringCode(t) + q)[0] == StringCode(t)[0];
    if s == "" || t == "" {
      assert r == (StringCode(s) + r)[1..] && q == (StringCode(t) + q)[1..];
    } else {
      assert (StringCode(s) + r)[1..] == StringCode(s[1..]) + r;
      assert (StringCode(t) + q)[1..] == StringCode(t[1..]) + q;
      StringsApart(s[1..], t[1..], r, q);
      assert s == [s[0]] + s[1..] && t == [t[0]] + t[1..];
    }
  }

  function IntCode(n: int): seq<nat> {
    if n < 0 then [0, -n] else [1, n]
  }

  lemma IntsApart(m: int, n: int, r: seq<nat>, q: seq<nat>)
    requires IntCode(m) + r == IntCode(n) + q
    ensures m == n && r == q
  {
    var a, b := IntCode(m) + r, IntCode(n) + q;
    assert a[0] == IntCode(m)[0] && b[0] == IntCode(n)[0] && a[1] == IntCode(m)[1] && b[1] == IntCode(n)[1];
    assert a[2..] == r && b[2..] == q;
  }

  function OptionCode(o: Option<string>): seq<nat> {
    match o
    case None => [0]
    case Some(s) => [1] + StringCode(s)
  }

  lemma OptionsApart(o: Option<string>, p: Option<string>, r: seq<nat>, q: seq<nat>)
    requires OptionCode(o) + r == OptionCode(p) + q
    ensures o == p && r == q
  {
    OptionHead(o, r);
    OptionHead(p, q);
    if o.Some? && p.Some? {
      HeadTail(1, 1, StringCode(o.value) + r, StringCode(p.value) + q);
      StringsApart(o.value, p.value, r, q);
    } else {
      HeadTail(if o.Some? then 1 else 0, if p.Some? then 1 else 0, (OptionCode(o) + r)[1..], (OptionCode(p) + q)[1..]);
    }
  }

  lemma OptionHead(o: Option<string>, r: seq<nat>)
    ensures o.Some? ==> OptionCode(o) + r == [1] + (StringCode(o.value) + r)
    ensures OptionCode(o) + r == [if o.Some? then 1 else 0] + (OptionCode(o) + r)[1..]
    ensures o.None? ==> (OptionCode(o) + r)[1..] == r
  {
  }

  /** The members of a usage object, in some order. */
  ghost function Members(u: Usage): seq<(string, int)> {
    if u == map[] then []
    else
      var k :| k in u;
      [(k, u[k])] + Members(u - {k})
  }

  function FromMembers(members: seq<(string, int)>): Usage {
    if members == [] then map[] else FromMembers(members[1..])[members[0].0 := members[0].1]
  }

  lemma {:induction false} MembersBack(u: Usage)
    ensures FromMembers(Members(u)) == u
  {
    if u != map[] {
      var k :| k in u && Members(u) == [(k, u[k])] + Members(u - {k});
      MembersBack(u - {k});
      assert Members(u)[1..] == Members(u - {k});
      assert u == (u - {k})[k := u[k]];
    }
  }

  function MembersCode(members: seq<(string, int)>): seq<nat> {
    if members == [] then [0]
    else [1] + (StringCode(members[0].0) + (IntCode(members[0].1) + MembersCode(members[1..])))
  }

  lemma {:induction false} MembersApart(x: seq<(string, int)>, y: seq<(string, int)>, r: seq<nat>, q: seq<nat>)
    requires MembersCode(x) + r == MembersCode(y) + q
    ensures x == y && r == q
  {
    var bodyX := if x == [] then r else StringCode(x[0].0) + (IntCode(x[0].1) + (MembersCode(x[1..]) + r));
    var bodyY := if y == [] then q else StringCode(y[0].0) + (IntCode(y[0].1) + (MembersCode(y[1..]) + q));
    MembersHead(x, r);
    MembersHead(y, q);
    HeadTail(if x == [] then 0 else 1, if y == [] then 0 else 1, bodyX, bodyY);
    if x != [] {
      var restX, restY := MembersCode(x[1..]) + r, MembersCode(y[1..]) + q;
      StringsApart(x[0].0, y[0].0, IntCode(x[0].1) + restX, IntCode(y[0].1) + restY);
      IntsApart(x[0].1, y[0].1, restX, restY);
      MembersApart(x[1..], y[1..], r, q);
      assert x == [x[0]] + x[1..] && y == [y[0]] + y[1..];
    }
  }

  lemma MembersHead(x: seq<(string, int)>, r: seq<nat>)
    ensures MembersCode(x) + r
         == if x == [] then [0] + r
            else [1] + (StringCode(x[0].0) + (IntCode(x[0].1) + (MembersCode(x[1..]) + r)))
  {
    if x != [] {
      Nest(StringCode(x[0].0), IntCode(x[0].1), MembersCode(x[1..]), r);
    }
  }

  lemma Nest(a: seq<nat>, b: seq<nat>, c: seq<nat>, r: seq<nat>)
    ensures ([1] + (a + (b + c))) + r == [1] + (a + (b + (c + r)))
  {
  }

  function MetaCode(m: Meta): seq<nat> {
    StringCode(m.id) + (IntCode(m.created) + (OptionCode(m.role) + (OptionCode(m.finish) + StringCode(m.other))))
  }

  lemma MetasApart(m: Meta, n: Meta)
    requires MetaCode(m) == MetaCode(n)
    ensures m == n
  {
    var a, b := StringCode(m.other), StringCode(n.other);
    StringsApart(m.id, n.id, IntCode(m.created) + (OptionCode(m.role) + (OptionCode(m.finish) + a)),
                 IntCode(n.created) + (OptionCode(n.role) + (OptionCode(n.finish) + b)));
    IntsApart(m.created, n.created, OptionCode(m.role) + (OptionCode(m.finish) + a),
              OptionCode(n.role) + (OptionCode(n.finish) + b));
    OptionsApart(m.role, n.role, OptionCode(m.finish) + a, OptionCode(n.finish) + b);
    OptionsApart(m.finish, n.finish, a, b);
    assert a == a + [] && b == b + [];
    StringsApart(m.other, n.other, [], []);
  }

  ghost function ChunkCode(c: Chunk): seq<nat> {
    MembersCode(Members(c.usage)) + (StringCode(c.model) + (StringCode(c.content) + MetaCode(c.meta)))
  }

  lemma ChunksApart(c: Chunk, d: Chunk)
    requires ChunkCode(c) == ChunkCode(d)
    ensures c == d
  {
    MembersApart(Members(c.usage), Members(d.usage), StringCode(c.model) + (StringCode(c.content) + MetaCode(c.meta)),
                 StringCode(d.model) + (StringCode(d.content) + MetaCode(d.meta)));
    MembersBack(c.usage);
    MembersBack(d.usage);
    StringsApart(c.model, d.model, StringCode(c.content) + MetaCode(c.meta), StringCode(d.content) + MetaCode(d.meta));
    StringsApart(c.content, d.content, MetaCode(c.meta), MetaCode(d.meta));
    MetasApart(c.meta, d.meta);
  }

  // ---- the codec ------------------------------------------------------------------

  ghost function Encode(c: Chunk): string {
    Word(ChunkCode(c))
  }

  ghost function Decode(s: string): Decoded {
    if c :| Encode(c) == s then Good(c) else Malformed
  }

  ghost function Unary(): Codec {
    Codec(Encode, Decode)
  }

  lemma UnaryIsLawful()
    ensures Lawful(Unary())
  {
    forall c: Chunk ensures Clean(Encode(c)) && Decode(Encode(c)) == Good(c) {
      WordIsPlain(ChunkCode(c));
      PlainIsClean(Encode(c));
      DecodesBack(c);
    }
  }

  lemma DecodesBack(c: Chunk)
    ensures Decode(Encode(c)) == Good(c)
  {
    forall d | Encode(d) == Encode(c) ensures d == c {
      WordApart(ChunkCode(d), ChunkCode(c));
      ChunksApart(d, c);
    }
  }

  lemma PlainIsClean(s: string)
    requires forall c <- s :: c == 'a' || c == ','
    ensures Clean(s)
  {
    if s != "" {
      assert s[0] in s && s[|s| - 1] in s;
      DroppedIs(IsByteSpace, s, 0);
      assert s[0..] == s && s[..|s|] == s;
    }
    assert DONE[0] == '[';
  }
}
