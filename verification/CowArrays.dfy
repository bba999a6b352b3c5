/** mruby arrays.  An array either owns its buffer or is a window on a buffer shared with other
    arrays; every operation acts on its own array as if nothing were shared. */
module SharedArrays {
  datatype Value = Nil | Fixnum(n: int)

  // aux: the capacity of an own buffer, or the shared-array block.
  datatype Aux = Capa(capa: nat) | Shared(s: nat)

  // struct RArray; ptr points off cells into the buffer buf
  datatype Ary = Ary(buf: nat, off: nat, len: nat, aux: Aux)

  // mrb_shared_array
  datatype Block = Block(refcnt: nat, len: nat, buf: nat)

  // All arrays, shared-array blocks and allocated buffers; no identifier from id on is in use.
  datatype World = World(mem: map<nat, seq<Value>>, ary: map<nat, Ary>, shr: map<nat, Block>, id: nat)

  function Users(ary: map<nat, Ary>, s: nat): set<nat> {
    set a | a in ary && ary[a].aux == Shared(s)
  }

  // What array x is as a sequence.
  function Elements(mem: map<nat, seq<Value>>, x: Ary): seq<Value> {
    if x.buf in mem && x.off + x.len <= |mem[x.buf]| then mem[x.buf][x.off..x.off + x.len] else []
  }

  function Val(w: World, a: nat): seq<Value> {
    if a in w.ary then Elements(w.mem, w.ary[a]) else []
  }

  // An array lies within its own buffer, or within the part that its shared block covers.
  ghost predicate Within(w: World, x: Ary) {
    && x.buf in w.mem
    && match x.aux
       case Capa(c) => x.off == 0 && x.len <= c <= |w.mem[x.buf]|
       case Shared(s) => s in w.shr && w.shr[s].buf == x.buf && x.off + x.len <= w.shr[s].len <= |w.mem[x.buf]|
  }

  // Two arrays on one buffer share it through one block.
  ghost predicate Apart(ary: map<nat, Ary>) {
    forall a, b :: a in ary && b in ary && a != b && ary[a].buf == ary[b].buf ==> ary[a].aux.Shared? && ary[b].aux == ary[a].aux
  }

  // A block's reference count is the number of arrays on it, and there is one.
  ghost predicate Counted(w: World) {
    forall s :: s in w.shr ==> w.shr[s].refcnt == |Users(w.ary, s)| && w.shr[s].refcnt > 0
  }

  ghost predicate Numbered(w: World) {
    && (forall a :: a in w.ary ==> a < w.id && w.ary[a].buf < w.id)
    && (forall s :: s in w.shr ==> s < w.id) && (forall p :: p in w.mem ==> p < w.id)
  }

  ghost predicate Sound(w: World) {
    (forall a :: a in w.ary ==> Within(w, w.ary[a])) && Apart(w.ary) && Counted(w) && Numbered(w)
  }

  // Every array but a is still there and is the same sequence.
  ghost predicate Kept(w: World, w': World, a: nat) {
    forall b :: b in w.ary && b != a ==> b in w'.ary && Val(w', b) == Val(w, b)
  }

  lemma KeptTrans(u: World, v: World, w: World, a: nat)
    requires Kept(u, v, a) && Kept(v, w, a)
    ensures Kept(u, w, a)
  {
  }

  // ---- steps on the world ----

  // Array a, the owner of its buffer, gets new cells, length and capacity, in place or in a
  // buffer of its own that is new.
  function Rewrite(w: World, a: nat, buf: nat, cells: seq<Value>, len: nat, capa: nat): World
    requires a in w.ary
  {
    var own := w.ary[a].buf;
    var mem := (if buf == own then w.mem else w.mem - {own})[buf := cells];
    World(mem, w.ary[a := Ary(buf, 0, len, Capa(capa))], w.shr, if buf < w.id then w.id else buf + 1)
  }

  lemma SameUsers(ary: map<nat, Ary>, a: nat, x: Ary, s: nat)
    requires a in ary && (x.aux == Shared(s) <==> ary[a].aux == Shared(s))
    ensures Users(ary[a := x], s) == Users(ary, s)
  {
  }

  // Nobody else is on the buffer of an array that owns it.
  lemma Alone(w: World, a: nat, b: nat)
    requires Apart(w.ary) && a in w.ary && w.ary[a].aux.Capa? && b in w.ary && b != a
    ensures w.ary[b].buf != w.ary[a].buf
  {
  }

  lemma ApartUpdate(ary: map<nat, Ary>, a: nat, x: Ary)
    requires Apart(ary) && forall b :: b in ary && b != a ==> ary[b].buf != x.buf
    ensures Apart(ary[a := x])
  {
  }

  lemma CountedUpdate(w: World, a: nat, x: Ary, mem: map<nat, seq<Value>>, id: nat)
    requires Counted(w) && a in w.ary && w.ary[a].aux.Capa? && x.aux.Capa?
    ensures Counted(World(mem, w.ary[a := x], w.shr, id))
  {
    forall s | s in w.shr ensures Users(w.ary[a := x], s) == Users(w.ary, s) { SameUsers(w.ary, a, x, s); }
  }

  // What another array depends on has not changed.
  lemma Untouched(w: World, w': World, b: nat)
    requires b in w.ary && Within(w, w.ary[b]) && b in w'.ary && w'.ary[b] == w.ary[b]
    requires w.ary[b].buf in w'.mem && w'.mem[w.ary[b].buf] == w.mem[w.ary[b].buf]
    requires w.ary[b].aux.Shared? ==> w.ary[b].aux.s in w'.shr && w'.shr[w.ary[b].aux.s].buf == w.shr[w.ary[b].aux.s].buf
    requires w.ary[b].aux.Shared? ==> w'.shr[w.ary[b].aux.s].len == w.shr[w.ary[b].aux.s].len
    ensures Within(w', w'.ary[b]) && Val(w', b) == Val(w, b)
  {
  }

  lemma RewriteOther(w: World, a: nat, buf: nat, cells: seq<Value>, len: nat, capa: nat, b: nat)
    requires Sound(w) && a in w.ary && w.ary[a].aux.Capa? && (buf == w.ary[a].buf || buf == w.id) && b in w.ary && b != a
    ensures var w' := Rewrite(w, a, buf, cells, len, capa); b in w'.ary && Within(w', w'.ary[b]) && Val(w', b) == Val(w, b) && w.ary[b].buf != buf
  {
    hide Counted, Apart, Val;
    Alone(w, a, b);
    Untouched(w, Rewrite(w, a, buf, cells, len, capa), b);
  }

  lemma RewriteNumbered(w: World, a: nat, buf: nat, cells: seq<Value>, len: nat, capa: nat)
    requires Numbered(w) && a in w.ary && (buf == w.ary[a].buf || buf == w.id)
    ensures Numbered(Rewrite(w, a, buf, cells, len, capa))
  {
  }

  lemma RewriteSound(w: World, a: nat, buf: nat, cells: seq<Value>, len: nat, capa: nat)
    requires Sound(w) && a in w.ary && w.ary[a].aux.Capa? && (buf == w.ary[a].buf || buf == w.id)
    requires len <= capa <= |cells|
    ensures var w' := Rewrite(w, a, buf, cells, len, capa);
            Sound(w') && Kept(w, w', a) && Val(w', a) == cells[..len]
  {
    hide Apart, Counted, Numbered;
    var w' := Rewrite(w, a, buf, cells, len, capa);
    var x := Ary(buf, 0, len, Capa(capa));
    forall b | b in w.ary && b != a ensures b in w'.ary && Within(w', w'.ary[b]) && Val(w', b) == Val(w, b) && w.ary[b].buf != buf {
      RewriteOther(w, a, buf, cells, len, capa, b);
    }
    ApartUpdate(w.ary, a, x);
    CountedUpdate(w, a, x, w'.mem, w'.id);
    RewriteNumbered(w, a, buf, cells, len, capa);
  }

  // One user less, or one more.
  lemma UsersLeave(ary: map<nat, Ary>, a: nat, x: Ary, s: nat)
    requires a in ary && ary[a].aux == Shared(s) && x.aux != Shared(s)
    ensures Users(ary[a := x], s) == Users(ary, s) - {a} && |Users(ary[a := x], s)| == |Users(ary, s)| - 1
  {
  }

  lemma UsersGone(ary: map<nat, Ary>, a: nat, s: nat)
    requires a in ary
    ensures Users(ary - {a}, s) == Users(ary, s) - {a}
    ensures |Users(ary - {a}, s)| == if ary[a].aux == Shared(s) then |Users(ary, s)| - 1 else |Users(ary, s)|
  {
    if ary[a].aux != Shared(s) { assert Users(ary, s) - {a} == Users(ary, s); }
  }

  lemma UsersJoin(ary: map<nat, Ary>, a: nat, x: Ary, s: nat)
    requires a !in ary || ary[a].aux != Shared(s)
    requires x.aux == Shared(s)
    ensures Users(ary[a := x], s) == Users(ary, s) + {a} && |Users(ary[a := x], s)| == |Users(ary, s)| + 1
  {
  }

  // The only user of a block.
  lemma SoleUser(w: World, a: nat, s: nat, b: nat)
    requires Counted(w) && a in w.ary && w.ary[a].aux == Shared(s) && s in w.shr && w.shr[s].refcnt == 1
    requires b in w.ary && b != a
    ensures w.ary[b].aux != Shared(s)
  {
    var users := Users(w.ary, s);
    assert a in users;
    if w.ary[b].aux == Shared(s) {
      assert b in users && {a, b} <= users;
      Fewer({a, b}, users);
    }
  }

  lemma {:induction false} Fewer(a: set<nat>, b: set<nat>)
    requires a <= b
    ensures |a| <= |b|
    decreases |a|
  {
    if a != {} {
      var x :| x in a;
      Fewer(a - {x}, b - {x});
    }
  }

  // mrb_ary_decref on the block s, whose buffer goes with the last reference
  function Decref(mem: map<nat, seq<Value>>, shr: map<nat, Block>, s: nat): (map<nat, seq<Value>>, map<nat, Block>)
    requires s in shr && shr[s].refcnt > 0
  {
    if shr[s].refcnt == 1 then (mem - {shr[s].buf}, shr - {s}) else (mem, shr[s := shr[s].(refcnt := shr[s].refcnt - 1)])
  }

  // ary_modify: afterwards a owns its buffer
  function Unshare(w: World, a: nat): World
    requires a in w.ary && (w.ary[a].aux.Shared? ==> w.ary[a].aux.s in w.shr && w.shr[w.ary[a].aux.s].refcnt > 0)
  {
    var x := w.ary[a];
    match x.aux
    case Capa(_) => w
    case Shared(s) =>
      if w.shr[s].refcnt == 1 && x.off == 0 then
        World(w.mem, w.ary[a := Ary(x.buf, 0, x.len, Capa(x.len))], w.shr - {s}, w.id)
      else
        var (mem, shr) := Decref(w.mem, w.shr, s);
        World(mem[w.id := Elements(w.mem, x)], w.ary[a := Ary(w.id, 0, x.len, Capa(x.len))], shr, w.id + 1)
  }

  lemma UnshareOther(w: World, a: nat, b: nat)
    requires Sound(w) && a in w.ary && w.ary[a].aux.Shared? && b in w.ary && b != a
    ensures var s := w.ary[a].aux.s; s in w.shr && w.shr[s].refcnt > 0
    ensures var w' := Unshare(w, a); b in w'.ary && Within(w', w'.ary[b]) && Val(w', b) == Val(w, b) && w.ary[b].buf != w'.ary[a].buf
  {
    hide Val, Elements;
    assert Within(w, w.ary[a]) && Within(w, w.ary[b]);
    var s := w.ary[a].aux.s;
    if w.shr[s].refcnt == 1 { SoleUser(w, a, s, b); }
    Untouched(w, Unshare(w, a), b);
  }

  lemma UnshareCounted(w: World, a: nat)
    requires Counted(w) && a in w.ary && w.ary[a].aux.Shared? && w.ary[a].aux.s in w.shr
    ensures Counted(Unshare(w, a))
  {
    hide Elements;
    var s, w' := w.ary[a].aux.s, Unshare(w, a);
    UsersLeave(w.ary, a, w'.ary[a], s);
    forall t | t in w'.shr && t != s ensures Users(w'.ary, t) == Users(w.ary, t) { SameUsers(w.ary, a, w'.ary[a], t); }
  }

  lemma UnshareSound(w: World, a: nat)
    requires Sound(w) && a in w.ary
    ensures w.ary[a].aux.Shared? ==> w.ary[a].aux.s in w.shr && w.shr[w.ary[a].aux.s].refcnt > 0
    ensures var w' := Unshare(w, a);
            Sound(w') && Kept(w, w', a) && a in w'.ary && Val(w', a) == Val(w, a) && w'.ary[a].aux.Capa? && w'.ary[a].len == w.ary[a].len
  {
    assert Within(w, w.ary[a]);
    if w.ary[a].aux.Shared? { UnshareShared(w, a); }
  }

  lemma UnshareShared(w: World, a: nat)
    requires Sound(w) && a in w.ary && w.ary[a].aux.Shared?
    requires w.ary[a].aux.s in w.shr && w.shr[w.ary[a].aux.s].refcnt > 0
    ensures var w' := Unshare(w, a); Sound(w') && Kept(w, w', a) && a in w'.ary && Val(w', a) == Val(w, a)
  {
    hide Apart, Counted;
    var w' := Unshare(w, a);
    assert Within(w, w.ary[a]);
    forall b | b in w.ary && b != a ensures b in w'.ary && Within(w', w'.ary[b]) && Val(w', b) == Val(w, b) && w.ary[b].buf != w'.ary[a].buf {
      UnshareOther(w, a, b);
    }
    ApartUpdate(w.ary, a, w'.ary[a]);
    UnshareCounted(w, a);
  }

  // ary_make_shared: a buffer with room to spare is cut to size, and a block takes it over
  function Share(w: World, a: nat): World
    requires a in w.ary
  {
    var x := w.ary[a];
    match x.aux
    case Shared(_) => w
    case Capa(c) =>
      if c > x.len then
        World((w.mem - {x.buf})[w.id := Elements(w.mem, x)], w.ary[a := Ary(w.id, 0, x.len, Shared(w.id))],
              w.shr[w.id := Block(1, x.len, w.id)], w.id + 1)
      else
        World(w.mem, w.ary[a := Ary(x.buf, 0, x.len, Shared(w.id))], w.shr[w.id := Block(1, x.len, x.buf)], w.id + 1)
  }

  lemma ShareOther(w: World, a: nat, b: nat)
    requires Sound(w) && a in w.ary && w.ary[a].aux.Capa? && b in w.ary && b != a
    ensures var w' := Share(w, a); b in w'.ary && Within(w', w'.ary[b]) && Val(w', b) == Val(w, b) && w.ary[b].buf != w'.ary[a].buf
  {
    hide Val, Elements, Apart, Counted;
    assert Within(w, w.ary[b]);
    Alone(w, a, b);
    Untouched(w, Share(w, a), b);
  }

  lemma ShareCounted(w: World, a: nat)
    requires Counted(w) && Numbered(w) && a in w.ary && w.ary[a].aux.Capa? && forall b :: b in w.ary ==> Within(w, w.ary[b])
    ensures Counted(Share(w, a))
  {
    hide Elements;
    var w' := Share(w, a);
    assert Users(w.ary, w.id) == {} by {
      forall b | b in w.ary ensures w.ary[b].aux != Shared(w.id) { assert Within(w, w.ary[b]); }
    }
    UsersJoin(w.ary, a, w'.ary[a], w.id);
    forall t | t in w'.shr && t != w.id ensures Users(w'.ary, t) == Users(w.ary, t) { SameUsers(w.ary, a, w'.ary[a], t); }
  }

  lemma ShareOwn(w: World, a: nat)
    requires Numbered(w) && a in w.ary && w.ary[a].aux.Capa? && Within(w, w.ary[a])
    ensures var w' := Share(w, a);
            && Numbered(w') && a in w'.ary && Within(w', w'.ary[a]) && Val(w', a) == Val(w, a)
            && w'.ary == w.ary[a := w'.ary[a]] && w'.ary[a].aux.Shared? && w'.ary[a].len == w.ary[a].len
  {
  }

  lemma ShareSound(w: World, a: nat)
    requires Sound(w) && a in w.ary
    ensures var w' := Share(w, a);
            Sound(w') && Kept(w, w', a) && a in w'.ary && Val(w', a) == Val(w, a) && w'.ary[a].aux.Shared? && w'.ary[a].len == w.ary[a].len
            && w'.ary.Keys == w.ary.Keys
  {
    if w.ary[a].aux.Capa? { ShareUnshared(w, a); }
  }

  lemma ShareUnshared(w: World, a: nat)
    requires Sound(w) && a in w.ary && w.ary[a].aux.Capa?
    ensures var w' := Share(w, a);
            Sound(w') && Kept(w, w', a) && a in w'.ary && Val(w', a) == Val(w, a) && w'.ary[a].aux.Shared? && w'.ary[a].len == w.ary[a].len
            && w'.ary.Keys == w.ary.Keys
  {
    hide Apart, Counted, Numbered, Share, Within, Val;
    var w' := Share(w, a);
    ShareOwn(w, a);
    forall b | b in w.ary && b != a ensures b in w'.ary && Within(w', w'.ary[b]) && Val(w', b) == Val(w, b) && w.ary[b].buf != w'.ary[a].buf {
      ShareOther(w, a, b);
    }
    ApartUpdate(w.ary, a, w'.ary[a]);
    ShareCounted(w, a);
  }

  // Another stretch of the same buffer.
  function Window(w: World, a: nat, off: nat, len: nat): World
    requires a in w.ary
  {
    w.(ary := w.ary[a := w.ary[a].(off := off, len := len)])
  }

  lemma ApartSame(ary: map<nat, Ary>, a: nat, x: Ary)
    requires Apart(ary) && a in ary && x.buf == ary[a].buf && x.aux == ary[a].aux
    ensures Apart(ary[a := x])
  {
  }

  lemma WindowSound(w: World, a: nat, off: nat, len: nat)
    requires Sound(w) && a in w.ary && Within(w, w.ary[a].(off := off, len := len))
    ensures var w' := Window(w, a, off, len);
            Sound(w') && Kept(w, w', a) && a in w'.ary && off + len <= |w.mem[w.ary[a].buf]| && Val(w', a) == w.mem[w.ary[a].buf][off..off + len]
  {
    hide Apart, Counted;
    var w', x := Window(w, a, off, len), w.ary[a].(off := off, len := len);
    ApartSame(w.ary, a, x);
    WindowCounted(w, a, x);
    forall b | b in w.ary && b != a ensures Within(w', w'.ary[b]) && Val(w', b) == Val(w, b) { assert Within(w, w.ary[b]); Untouched(w, w', b); }
  }

  lemma WindowCounted(w: World, a: nat, x: Ary)
    requires Counted(w) && a in w.ary && x.aux == w.ary[a].aux
    ensures Counted(w.(ary := w.ary[a := x]))
  {
    forall s | s in w.shr ensures Users(w.ary[a := x], s) == Users(w.ary, s) { SameUsers(w.ary, a, x, s); }
  }

  // The only user of a block writes into its buffer.
  lemma PokeSound(w: World, a: nat, cells: seq<Value>)
    requires Sound(w) && a in w.ary && w.ary[a].aux.Shared?
    requires w.ary[a].aux.s in w.shr && w.shr[w.ary[a].aux.s].refcnt == 1 && w.ary[a].buf in w.mem && |cells| == |w.mem[w.ary[a].buf]|
    ensures var w' := w.(mem := w.mem[w.ary[a].buf := cells]);
            Sound(w') && Kept(w, w', a) && Val(w', a) == cells[w.ary[a].off..w.ary[a].off + w.ary[a].len]
  {
    hide Counted;
    var w' := w.(mem := w.mem[w.ary[a].buf := cells]);
    assert Within(w, w.ary[a]);
    forall b | b in w.ary && b != a ensures Within(w', w'.ary[b]) && Val(w', b) == Val(w, b) {
      SoleUser(w, a, w.ary[a].aux.s, b);
      assert Within(w, w.ary[b]);
      Untouched(w, w', b);
    }
    SameCounted(w, w'.mem, w.id);
  }

  lemma SameCounted(w: World, mem: map<nat, seq<Value>>, id: nat)
    requires Counted(w)
    ensures Counted(World(mem, w.ary, w.shr, id))
  {
  }

  // ary_subseq on an array that is shared already: a new array, one more reference
  function Attach(w: World, a: nat, beg: nat, len: nat): World
    requires a in w.ary && w.ary[a].aux.Shared? && w.ary[a].aux.s in w.shr
  {
    var x := w.ary[a];
    var s := x.aux.s;
    World(w.mem, w.ary[w.id := Ary(x.buf, x.off + beg, len, x.aux)], w.shr[s := w.shr[s].(refcnt := w.shr[s].refcnt + 1)], w.id + 1)
  }

  lemma AttachCounted(w: World, a: nat, beg: nat, len: nat)
    requires Counted(w) && Numbered(w) && a in w.ary && w.ary[a].aux.Shared? && w.ary[a].aux.s in w.shr
    ensures Counted(Attach(w, a, beg, len))
  {
    var s, w' := w.ary[a].aux.s, Attach(w, a, beg, len);
    UsersJoin(w.ary, w.id, w'.ary[w.id], s);
    forall t | t in w'.shr && t != s ensures Users(w'.ary, t) == Users(w.ary, t) {}
  }

  lemma AttachApart(w: World, a: nat, x: Ary)
    requires Apart(w.ary) && a in w.ary && w.ary[a].aux.Shared? && w.id !in w.ary && x.buf == w.ary[a].buf && x.aux == w.ary[a].aux
    ensures Apart(w.ary[w.id := x])
  {
  }

  lemma AttachSound(w: World, a: nat, beg: nat, len: nat)
    requires Sound(w) && a in w.ary && w.ary[a].aux.Shared? && beg + len <= w.ary[a].len
    ensures w.ary[a].aux.s in w.shr
    ensures var w' := Attach(w, a, beg, len); Sound(w') && Kept(w, w', w.id) && w.id !in w.ary && w.id in w'.ary && Val(w', w.id) == Val(w, a)[beg..beg + len]
  {
    hide Apart, Counted;
    assert Within(w, w.ary[a]);
    var w' := Attach(w, a, beg, len);
    assert w.id !in w.ary;
    AttachApart(w, a, w'.ary[w.id]);
    AttachCounted(w, a, beg, len);
    forall b | b in w.ary ensures Within(w', w'.ary[b]) && Val(w', b) == Val(w, b) { assert Within(w, w.ary[b]); Untouched(w, w', b); }
  }

  // The array object is gone; its buffer too, if nobody else is on it.
  function Dropped(w: World, a: nat): World
    requires a in w.ary && (w.ary[a].aux.Shared? ==> w.ary[a].aux.s in w.shr && w.shr[w.ary[a].aux.s].refcnt > 0)
  {
    match w.ary[a].aux
    case Capa(_) => w.(mem := w.mem - {w.ary[a].buf}, ary := w.ary - {a})
    case Shared(s) => var (mem, shr) := Decref(w.mem, w.shr, s); World(mem, w.ary - {a}, shr, w.id)
  }

  lemma DroppedOther(w: World, a: nat, b: nat)
    requires Sound(w) && a in w.ary && b in w.ary && b != a
    ensures w.ary[a].aux.Shared? ==> w.ary[a].aux.s in w.shr && w.shr[w.ary[a].aux.s].refcnt > 0
    ensures var w' := Dropped(w, a); b in w'.ary && Within(w', w'.ary[b]) && Val(w', b) == Val(w, b)
  {
    hide Val, Elements;
    assert Within(w, w.ary[a]) && Within(w, w.ary[b]);
    if w.ary[a].aux.Shared? && w.shr[w.ary[a].aux.s].refcnt == 1 { SoleUser(w, a, w.ary[a].aux.s, b); }
    Untouched(w, Dropped(w, a), b);
  }

  lemma DroppedCounted(w: World, a: nat)
    requires Counted(w) && a in w.ary && (w.ary[a].aux.Shared? ==> w.ary[a].aux.s in w.shr)
    ensures Counted(Dropped(w, a))
  {
    var w' := Dropped(w, a);
    forall t | t in w'.shr ensures w'.shr[t].refcnt == |Users(w'.ary, t)| && w'.shr[t].refcnt > 0 { UsersGone(w.ary, a, t); }
  }

  // The block of a shared array is there.
  lemma LiveBlock(w: World, a: nat)
    requires Sound(w) && a in w.ary
    ensures w.ary[a].aux.Shared? ==> w.ary[a].aux.s in w.shr && w.shr[w.ary[a].aux.s].refcnt > 0
  {
    assert Within(w, w.ary[a]);
  }

  lemma ApartLess(ary: map<nat, Ary>, a: nat)
    requires Apart(ary)
    ensures Apart(ary - {a})
  {
  }

  lemma DroppedSound(w: World, a: nat)
    requires Sound(w) && a in w.ary
    ensures w.ary[a].aux.Shared? ==> w.ary[a].aux.s in w.shr && w.shr[w.ary[a].aux.s].refcnt > 0
    ensures Sound(Dropped(w, a)) && Kept(w, Dropped(w, a), a) && a !in Dropped(w, a).ary
  {
    hide Counted, Apart, Within, Val;
    LiveBlock(w, a);
    forall b | b in w.ary && b != a ensures b in Dropped(w, a).ary && Within(Dropped(w, a), Dropped(w, a).ary[b]) && Val(Dropped(w, a), b) == Val(w, b) {
      DroppedOther(w, a, b);
    }
    ApartLess(w.ary, a);
    DroppedCounted(w, a);
  }

  // A new array with a buffer of its own.
  function Created(w: World, cells: seq<Value>): World {
    World(w.mem[w.id + 1 := cells], w.ary[w.id := Ary(w.id + 1, 0, |cells|, Capa(|cells|))], w.shr, w.id + 2)
  }

  lemma CreatedCounted(w: World, cells: seq<Value>)
    requires Counted(w) && Numbered(w)
    ensures Counted(Created(w, cells))
  {
    forall s | s in w.shr ensures Users(Created(w, cells).ary, s) == Users(w.ary, s) {}
  }

  lemma CreatedOther(w: World, cells: seq<Value>, b: nat)
    requires Sound(w) && b in w.ary
    ensures var w' := Created(w, cells); b in w'.ary && Within(w', w'.ary[b]) && Val(w', b) == Val(w, b) && w.ary[b].buf != w.id + 1
  {
    hide Counted, Apart, Val;
    assert Within(w, w.ary[b]);
    Untouched(w, Created(w, cells), b);
  }

  lemma CreatedSound(w: World, cells: seq<Value>)
    requires Sound(w)
    ensures var w' := Created(w, cells); Sound(w') && Kept(w, w', w.id) && w.id !in w.ary && Val(w', w.id) == cells
  {
    hide Counted, Apart;
    var w' := Created(w, cells);
    forall b | b in w.ary ensures b in w'.ary && Within(w', w'.ary[b]) && Val(w', b) == Val(w, b) && w.ary[b].buf != w.id + 1 { CreatedOther(w, cells, b); }
    ApartUpdate(w.ary, w.id, w'.ary[w.id]);
    CreatedCounted(w, cells);
  }

  // ---- cells ----

  function Overwritten(c: seq<Value>, at: nat, vs: seq<Value>): (r: seq<Value>)
    requires at + |vs| <= |c|
    ensures |r| == |c|
  {
    c[..at] + vs + c[at + |vs|..]
  }

  function Nils(n: nat): (r: seq<Value>)
    ensures |r| == n
  {
    seq(n, _ => Nil)
  }

  // array_copy
  method ArrayCopy(c: seq<Value>, at: nat, vs: seq<Value>) returns (r: seq<Value>)
    requires at + |vs| <= |c|
    ensures r == Overwritten(c, at, vs)
  {
    r := c;
    var i := 0;
    while i < |vs|
      invariant i <= |vs| && r == Overwritten(c, at, vs[..i])
    {
      r := r[at + i := vs[i]];
      i := i + 1;
    }
    assert vs[..i] == vs;
  }

  // ary_fill_with_nil
  method FillWithNil(c: seq<Value>, at: nat, n: nat) returns (r: seq<Value>)
    requires at + n <= |c|
    ensures r == Overwritten(c, at, Nils(n))
  {
    r := c;
    var i := 0;
    while i < n
      invariant i <= n && r == Overwritten(c, at, Nils(i))
    {
      r := r[at + i := Nil];
      i := i + 1;
    }
  }

  // The j-th cell once the cells from to + lo to to + hi have been moved.
  function Moved(c: seq<Value>, to: nat, from: nat, lo: int, hi: int, j: nat): Value
    requires j < |c| && 0 <= lo <= hi && from + hi <= |c|
  {
    if to + lo <= j < to + hi then c[j - to + from] else c[j]
  }

  // value_move: the stretches may overlap
  method ValueMove(c: seq<Value>, to: nat, from: nat, n: nat) returns (r: seq<Value>)
    requires to + n <= |c| && from + n <= |c|
    ensures r == Overwritten(c, to, c[from..from + n])
  {
    r := c;
    if to > from && to < from + n {
      var k := n;
      while k > 0
        invariant 0 <= k <= n && |r| == |c| && forall j: nat :: j < |c| ==> r[j] == Moved(c, to, from, k, n, j)
      {
        k := k - 1;
        assert r[from + k] == Moved(c, to, from, k + 1, n, from + k) == c[from + k];
        r := r[to + k := r[from + k]];
      }
    } else if to != from {
      var k := 0;
      while k < n
        invariant 0 <= k <= n && |r| == |c| && forall j: nat :: j < |c| ==> r[j] == Moved(c, to, from, 0, k, j)
      {
        assert r[from + k] == Moved(c, to, from, 0, k, from + k) == c[from + k];
        r := r[to + k := r[from + k]];
        k := k + 1;
      }
    }
    var want := Overwritten(c, to, c[from..from + n]);
    assert forall j: nat :: j < |c| ==> want[j] == Moved(c, to, from, 0, n, j);
    assert to == from ==> forall j: nat :: j < |c| ==> c[j] == Moved(c, to, from, 0, n, j);
    assert forall j: nat :: j < |c| ==> r[j] == Moved(c, to, from, 0, n, j);
  }

  const ARY_DEFAULT_LEN: nat := 4
  const ARY_SHIFT_SHARED_MIN: nat := 10

  datatype Status = Done | IndexError | ArgumentError

  // The operand of an assignment to a stretch: one value, or another array.
  datatype Operand = One(v: Value) | Of(b: nat)

  // From w to w', array a has become the sequence v and every other array is the same.
  ghost predicate Acts(w: World, w': World, a: nat, v: seq<Value>) {
    Sound(w') && Kept(w, w', a) && a in w'.ary && Val(w', a) == v
  }

  lemma ActsTrans(u: World, v: World, w: World, a: nat, x: seq<Value>, y: seq<Value>)
    requires Acts(u, v, a, x) && Acts(v, w, a, y)
    ensures Acts(u, w, a, y)
  {
    KeptTrans(u, v, w, a);
  }

  lemma Stays(w: World, a: nat)
    requires Sound(w) && a in w.ary
    ensures Acts(w, w, a, Val(w, a))
  {
  }

  // What an array that owns its buffer looks like.
  lemma OwnFacts(w: World, a: nat)
    requires Sound(w) && a in w.ary && w.ary[a].aux.Capa?
    ensures var x := w.ary[a]; x.buf in w.mem && x.off == 0 && x.len <= x.aux.capa <= |w.mem[x.buf]| && Val(w, a) == w.mem[x.buf][..x.len]
  {
    assert Within(w, w.ary[a]);
  }

  lemma LengthFacts(w: World, a: nat)
    requires Sound(w) && a in w.ary
    ensures var x := w.ary[a]; |Val(w, a)| == x.len && (x.aux.Capa? ==> x.off == 0) && x.buf in w.mem && x.off + x.len <= |w.mem[x.buf]| && Val(w, a) == w.mem[x.buf][x.off..x.off + x.len]
  {
    assert Within(w, w.ary[a]);
  }

  lemma SharedFacts(w: World, a: nat)
    requires Sound(w) && a in w.ary && w.ary[a].aux.Shared?
    ensures var x := w.ary[a]; x.aux.s in w.shr && w.shr[x.aux.s].refcnt > 0 && w.shr[x.aux.s].buf == x.buf && x.buf < w.id
    ensures var x := w.ary[a]; x.off + x.len <= w.shr[x.aux.s].len <= |w.mem[x.buf]|
  {
    assert Within(w, w.ary[a]);
  }

  lemma MapOrder(m: map<nat, seq<Value>>, p: nat, c: seq<Value>, b: nat)
    requires p != b
    ensures m[p := c] - {b} == (m - {b})[p := c]
  {
  }

  // A larger stretch of a shared buffer.
  lemma Widen(w: World, a: nat, off: nat, len: nat)
    requires Sound(w) && a in w.ary && w.ary[a].aux.Shared? && off + len == w.ary[a].off + w.ary[a].len
    ensures w.ary[a].buf in w.mem && off + len <= |w.mem[w.ary[a].buf]|
    ensures Acts(w, Window(w, a, off, len), a, w.mem[w.ary[a].buf][off..off + len])
  {
    assert Within(w, w.ary[a]);
    WindowSound(w, a, off, len);
    hide Counted, Apart, Kept;
  }

  lemma PokeThenWiden(u: World, v: World, w: World, a: nat, x: seq<Value>)
    requires Kept(u, v, a) && Acts(v, w, a, x)
    ensures Acts(u, w, a, x)
  {
    KeptTrans(u, v, w, a);
  }

  lemma InUse(w: World, a: nat)
    requires Sound(w) && a in w.ary
    ensures w.ary[a].buf < w.id && a < w.id
  {
  }

  // A smaller stretch of an array.
  lemma Narrow(w: World, a: nat, off: nat, len: nat)
    requires Sound(w) && a in w.ary && w.ary[a].off <= off && off + len <= w.ary[a].off + w.ary[a].len
    requires w.ary[a].aux.Capa? ==> off == 0
    ensures w.ary[a].buf in w.mem && off + len <= |w.mem[w.ary[a].buf]|
    ensures Acts(w, Window(w, a, off, len), a, w.mem[w.ary[a].buf][off..off + len])
  {
    assert Within(w, w.ary[a]);
    WindowSound(w, a, off, len);
    hide Counted, Apart, Kept;
  }

  // A negative index counts from the end.
  function FromEnd(n: int, len: nat): int {
    if n < 0 then n + len else n
  }

  // Assignment to one element, past the end if need be.
  function WithAt(x: seq<Value>, i: int, v: Value): seq<Value> {
    if i < 0 then x else if i < |x| then x[i := v] else x + Nils(i - |x|) + [v]
  }

  // Assignment to a stretch.
  function Spliced(x: seq<Value>, h: int, k: int, ys: seq<Value>): seq<Value> {
    if h < 0 || k < 0 then x
    else if h > |x| then x + Nils(h - |x|) + ys
    else x[..h] + ys + x[if h + k <= |x| then h + k else |x|..]
  }

  function Stretch(x: seq<Value>, i: int, len: int): seq<Value> {
    if 0 <= i <= |x| && len >= 0 then x[i..if i + len <= |x| then i + len else |x|] else []
  }

  function OperandVal(w: World, rpl: Operand): seq<Value> {
    match rpl
    case One(v) => [v]
    case Of(b) => Val(w, b)
  }

  lemma SameOperand(w: World, w': World, a: nat, x: seq<Value>, rpl: Operand)
    requires Acts(w, w', a, x) && (rpl.Of? ==> rpl.b in w.ary && rpl.b != a)
    ensures OperandVal(w', rpl) == OperandVal(w, rpl) && (rpl.Of? ==> rpl.b in w'.ary)
  {
  }

  lemma SplicedLength(x: seq<Value>, h: nat, k: nat, ys: seq<Value>)
    ensures var t := if |x| < k || |x| < h + k then |x| else h + k;
            |Spliced(x, h, k, ys)| == h + |ys| + (if t < |x| then |x| - t else 0)
  {
  }

  // The gap of mrb_ary_splice: nil up to head, or the tail moved out of the way.
  method MakeRoom(c: seq<Value>, alen: nat, head: nat, tail: nat, argc: nat) returns (r: seq<Value>)
    requires alen <= |c| && tail <= alen && (head <= alen ==> head <= tail) && head + argc + (alen - tail) <= |c|
    ensures |r| == |c|
    ensures r == if head > alen then Overwritten(c, alen, Nils(head - alen)) else Overwritten(c, head + argc, c[tail..alen])
  {
    if head > alen {
      r := FillWithNil(c, alen, head - alen);
    } else if head < alen {
      r := ValueMove(c, head + argc, tail, alen - tail);
    } else {
      r := c;
      assert c[tail..alen] == [];
    }
  }

  lemma RoomFilled(c: seq<Value>, r: seq<Value>, x: seq<Value>, head: nat, k: nat, argv: seq<Value>)
    requires |x| <= |c| && x == c[..|x|]
    requires var tail := if |x| < k || |x| < head + k then |x| else head + k;
             head + |argv| + (if tail < |x| then |x| - tail else 0) <= |c|
             && r == Overwritten(if head > |x| then Overwritten(c, |x|, Nils(head - |x|)) else Overwritten(c, head + |argv|, c[tail..|x|]), head, argv)
    ensures var y := Spliced(x, head, k, argv); |y| <= |r| && r[..|y|] == y
  {
  }

  lemma SharedThenAttached(u: World, v: World, w: World, a: nat, b: nat, x: seq<Value>, y: seq<Value>)
    requires Acts(u, v, a, x) && Val(u, a) == x && Acts(v, w, b, y) && b !in u.ary && b !in v.ary
    ensures Acts(u, w, b, y)
  {
  }

  class Arrays {
    const maxSize: nat              // ARY_MAX_SIZE
    var mem: map<nat, seq<Value>>
    var ary: map<nat, Ary>
    var shr: map<nat, Block>
    var id: nat

    ghost function W(): World
      reads this
    {
      World(mem, ary, shr, id)
    }

    constructor (maxSize: nat)
      ensures Sound(W()) && ary == map[] && this.maxSize == maxSize
    {
      this.maxSize := maxSize;
      mem, ary, shr, id := map[], map[], map[], 0;
    }

    // ary_modify on an array whose buffer is shared: a private copy
    method CopyOut(a: nat)
      requires a in ary && ary[a].aux.Shared? && ary[a].aux.s in shr && shr[ary[a].aux.s].refcnt > 0
      requires var x := ary[a]; x.buf in mem && x.off + x.len <= |mem[x.buf]| && !(shr[x.aux.s].refcnt == 1 && x.off == 0)
      requires shr[ary[a].aux.s].buf != id
      modifies this
      ensures W() == Unshare(old(W()), a)
    {
      var x := ary[a];
      var s := x.aux.s;
      var cells := ArrayCopy(Nils(x.len), 0, mem[x.buf][x.off..x.off + x.len]);
      assert cells == Elements(mem, x);
      var p := id;
      id := id + 1;
      MapOrder(mem, p, cells, shr[s].buf);
      mem := mem[p := cells];
      ary := ary[a := Ary(p, 0, x.len, Capa(x.len))];
      DecrefBlock(s);
    }

    // ary_modify
    method AryModify(a: nat)
      requires Sound(W()) && a in ary
      modifies this
      ensures Acts(old(W()), W(), a, old(Val(W(), a))) && ary[a].aux.Capa? && ary[a].len == old(ary[a].len)
    {
      hide Sound, Kept, Val;
      UnshareSound(W(), a);
      LengthFacts(W(), a);
      Stays(W(), a);
      if ary[a].aux.Shared? {
        SharedFacts(W(), a);
        var x := ary[a];
        if shr[x.aux.s].refcnt == 1 && x.off == 0 {
          shr := shr - {x.aux.s};
          ary := ary[a := Ary(x.buf, 0, x.len, Capa(x.len))];
        } else {
          CopyOut(a);
        }
      }
    }

    // mrb_ary_decref
    method DecrefBlock(s: nat)
      requires s in shr && shr[s].refcnt > 0
      modifies this`mem, this`shr
      ensures (mem, shr) == Decref(old(mem), old(shr), s)
    {
      shr := shr[s := shr[s].(refcnt := shr[s].refcnt - 1)];
      assert shr - {s} == old(shr) - {s};
      if shr[s].refcnt == 0 {
        mem := mem - {shr[s].buf};
        shr := shr - {s};
      }
    }

    // ary_make_shared
    method AryMakeShared(a: nat)
      requires Sound(W()) && a in ary
      modifies this
      ensures Acts(old(W()), W(), a, old(Val(W(), a))) && ary[a].aux.Shared? && ary[a].len == old(ary[a].len) && ary.Keys == old(ary).Keys
    {
      hide Sound, Kept, Val;
      ShareSound(W(), a);
      LengthFacts(W(), a);
      Stays(W(), a);
      var x := ary[a];
      if x.aux.Capa? {
        OwnFacts(W(), a);
        var p := x.buf;
        if x.aux.capa > x.len {
          p := id;
          mem := (mem - {x.buf})[p := mem[x.buf][..x.len]];
        }
        shr := shr[id := Block(1, x.len, p)];
        ary := ary[a := Ary(p, 0, x.len, Shared(id))];
        id := id + 1;
      }
    }

    // New contents and length for an array that owns its buffer.
    method StoreCells(a: nat, cells: seq<Value>, len: nat)
      requires Sound(W()) && a in ary && ary[a].aux.Capa? && len <= ary[a].aux.capa
      requires ary[a].buf in mem && |cells| == |mem[ary[a].buf]|
      modifies this`mem, this`ary
      ensures Acts(old(W()), W(), a, cells[..len]) && ary[a].aux == old(ary[a].aux) && ary[a].len == len
    {
      hide Sound, Kept, Val;
      OwnFacts(W(), a);
      InUse(W(), a);
      RewriteSound(W(), a, ary[a].buf, cells, len, ary[a].aux.capa);
      mem := mem[ary[a].buf := cells];
      ary := ary[a := ary[a].(len := len)];
    }

    // ary_expand_capa
    method ExpandCapa(a: nat, n: nat) returns (ok: bool)
      requires Sound(W()) && a in ary && ary[a].aux.Capa?
      modifies this
      ensures ok <==> n <= maxSize
      ensures Acts(old(W()), W(), a, old(Val(W(), a))) && ary[a].aux.Capa? && ary[a].len == old(ary[a].len)
      ensures ok ==> n <= ary[a].aux.capa
    {
      hide Sound, Kept, Val;
      Stays(W(), a);
      OwnFacts(W(), a);
      if n > maxSize {
        return false;
      }
      var capa := ary[a].aux.capa;
      if capa == 0 {
        capa := ARY_DEFAULT_LEN;
      }
      while capa < n
        invariant capa > 0
        decreases n - capa
      {
        capa := capa * 2;
      }
      if capa > maxSize {
        capa := maxSize;
      }
      if capa > ary[a].aux.capa {
        Realloc(a, capa);
      }
      return true;
    }

    // mrb_realloc to a larger capacity
    method Realloc(a: nat, capa: nat)
      requires Sound(W()) && a in ary && ary[a].aux.Capa? && capa > ary[a].aux.capa
      modifies this
      ensures Acts(old(W()), W(), a, old(Val(W(), a))) && ary[a].aux == Capa(capa) && ary[a].len == old(ary[a].len)
    {
      hide Sound, Kept, Val;
      OwnFacts(W(), a);
      InUse(W(), a);
      var x := ary[a];
      var n := if |mem[x.buf]| < capa then |mem[x.buf]| else capa;
      var cells := ArrayCopy(Nils(capa), 0, mem[x.buf][..n]);
      assert cells[..x.len] == mem[x.buf][..x.len];
      RewriteSound(W(), a, id, cells, x.len, capa);
      mem := (mem - {x.buf})[id := cells];
      ary := ary[a := Ary(id, 0, x.len, Capa(capa))];
      id := id + 1;
    }

    // mrb_ary_push
    method Push(a: nat, v: Value) returns (st: Status)
      requires Sound(W()) && a in ary
      modifies this
      ensures st == Done ==> Acts(old(W()), W(), a, old(Val(W(), a)) + [v])
      ensures st != Done ==> st == ArgumentError && old(ary[a].len) + 1 > maxSize && Acts(old(W()), W(), a, old(Val(W(), a)))
    {
      hide Sound, Kept, Val;
      ghost var w, x := W(), Val(W(), a);
      AryModify(a);
      SoundNow(w, a, x);
      if ary[a].len == ary[a].aux.capa {
        ghost var w1 := W();
        var ok := ExpandCapa(a, ary[a].len + 1);
        ActsTrans(w, w1, W(), a, x, x);
        if !ok {
          return ArgumentError;
        }
        SoundNow(w, a, x);
      }
      ghost var w2 := W();
      var n := ary[a].len;
      var cells := mem[ary[a].buf][n := v];
      assert cells[..n + 1] == x + [v];
      StoreCells(a, cells, n + 1);
      ActsTrans(w, w2, W(), a, x, x + [v]);
      return Done;
    }

    // The state after a step is sound, and a is there with its elements.
    lemma SoundNow(w: World, a: nat, x: seq<Value>)
      requires Acts(w, W(), a, x)
      ensures Sound(W()) && a in ary && |x| == ary[a].len
      ensures ary[a].aux.Capa? ==> ary[a].buf in mem && ary[a].off == 0 && ary[a].len <= ary[a].aux.capa <= |mem[ary[a].buf]| && x == mem[ary[a].buf][..ary[a].len]
    {
      LengthFacts(W(), a);
      if ary[a].aux.Capa? { OwnFacts(W(), a); }
    }

    // mrb_ary_pop
    method Pop(a: nat) returns (v: Value)
      requires Sound(W()) && a in ary
      modifies this`ary
      ensures a in ary && ary[a].aux == old(ary[a].aux)
      ensures old(Val(W(), a)) == [] ==> v == Nil && Acts(old(W()), W(), a, [])
      ensures old(Val(W(), a)) != [] ==> Acts(old(W()), W(), a, old(Val(W(), a))[..old(ary[a].len) - 1])
      ensures old(Val(W(), a)) != [] ==> |old(Val(W(), a))| == old(ary[a].len) && v == old(Val(W(), a))[old(ary[a].len) - 1]
    {
      hide Sound, Kept, Val;
      LengthFacts(W(), a);
      Stays(W(), a);
      if ary[a].len == 0 {
        return Nil;
      }
      var x := ary[a];
      Narrow(W(), a, x.off, x.len - 1);
      ary := ary[a := x.(len := x.len - 1)];
      v := mem[x.buf][x.off + x.len - 1];
    }

    // the shared case of mrb_ary_shift: the window moves on
    method Advance(a: nat) returns (v: Value)
      requires Sound(W()) && a in ary && ary[a].aux.Shared? && ary[a].len > 0
      modifies this`ary
      ensures Acts(old(W()), W(), a, old(Val(W(), a))[1..]) && v == old(Val(W(), a))[0]
    {
      hide Sound, Kept, Val;
      LengthFacts(W(), a);
      var x := ary[a];
      Narrow(W(), a, x.off + 1, x.len - 1);
      v := mem[x.buf][x.off];
      ary := ary[a := x.(off := x.off + 1, len := x.len - 1)];
    }

    // mrb_ary_shift
    method Shift(a: nat) returns (v: Value)
      requires Sound(W()) && a in ary
      modifies this
      ensures old(Val(W(), a)) == [] ==> v == Nil && Acts(old(W()), W(), a, [])
      ensures old(Val(W(), a)) != [] ==> v == old(Val(W(), a))[0] && Acts(old(W()), W(), a, old(Val(W(), a))[1..])
    {
      hide Sound, Kept, Val;
      LengthFacts(W(), a);
      Stays(W(), a);
      if ary[a].len == 0 {
        return Nil;
      }
      if ary[a].aux.Shared? {
        v := Advance(a);
        return;
      }
      if ary[a].len > ARY_SHIFT_SHARED_MIN {
        ghost var w, x := W(), Val(W(), a);
        AryMakeShared(a);
        SoundNow(w, a, x);
        ghost var w1 := W();
        v := Advance(a);
        ActsTrans(w, w1, W(), a, x, x[1..]);
      } else {
        v := SlideDown(a);
      }
    }

    // the other case: the elements slide down by one
    method SlideDown(a: nat) returns (v: Value)
      requires Sound(W()) && a in ary && ary[a].aux.Capa? && ary[a].len > 0
      modifies this`mem, this`ary
      ensures v == old(Val(W(), a))[0] && Acts(old(W()), W(), a, old(Val(W(), a))[1..])
    {
      hide Sound, Kept, Val;
      OwnFacts(W(), a);
      var cells, size := mem[ary[a].buf], ary[a].len;
      v := cells[0];
      var k := 0;
      while k < size - 1
        invariant 0 <= k <= size - 1 && |cells| == |mem[ary[a].buf]|
        invariant forall j :: 0 <= j < |cells| ==> cells[j] == mem[ary[a].buf][if j < k then j + 1 else j]
      {
        cells := cells[k := cells[k + 1]];
        k := k + 1;
      }
      assert cells[..size - 1] == mem[ary[a].buf][..size][1..];
      StoreCells(a, cells, size - 1);
    }

    // mrb_ary_unshift and mrb_ary_unshift_m: room left in front of the window is used if the
    // buffer is shared with nobody else
    method Unshift(a: nat, vals: seq<Value>) returns (st: Status)
      requires Sound(W()) && a in ary
      modifies this
      ensures st == Done ==> Acts(old(W()), W(), a, vals + old(Val(W(), a)))
      ensures st != Done ==> st == ArgumentError && old(ary[a].len) + |vals| > maxSize && Acts(old(W()), W(), a, old(Val(W(), a)))
    {
      hide Sound, Kept, Val;
      ghost var w, x := W(), Val(W(), a);
      if ary[a].aux.Shared? { SharedFacts(W(), a); }
      if ary[a].aux.Shared? && shr[ary[a].aux.s].refcnt == 1 && ary[a].off >= |vals| {
        UnshiftInPlace(a, vals);
        return Done;
      }
      AryModify(a);
      SoundNow(w, a, x);
      if |vals| == 0 {
        assert vals + x == x;
        return Done;
      }
      if ary[a].aux.capa < ary[a].len + |vals| {
        ghost var w1 := W();
        var ok := ExpandCapa(a, ary[a].len + |vals|);
        ActsTrans(w, w1, W(), a, x, x);
        if !ok {
          return ArgumentError;
        }
        SoundNow(w, a, x);
      }
      ghost var w2 := W();
      var n := ary[a].len;
      var cells := ValueMove(mem[ary[a].buf], |vals|, 0, n);
      cells := ArrayCopy(cells, 0, vals);
      assert cells[..n + |vals|] == vals + x;
      StoreCells(a, cells, n + |vals|);
      ActsTrans(w, w2, W(), a, x, vals + x);
      return Done;
    }

    method UnshiftInPlace(a: nat, vals: seq<Value>)
      requires Sound(W()) && a in ary && ary[a].aux.Shared? && ary[a].aux.s in shr && shr[ary[a].aux.s].refcnt == 1 && ary[a].off >= |vals|
      modifies this`mem, this`ary
      ensures Acts(old(W()), W(), a, vals + old(Val(W(), a)))
    {
      hide Sound, Kept, Val;
      LengthFacts(W(), a);
      SharedFacts(W(), a);
      var x := ary[a];
      ghost var w := W();
      var cells := ArrayCopy(mem[x.buf], x.off - |vals|, vals);
      assert cells[x.off - |vals|..x.off + x.len] == vals + mem[x.buf][x.off..x.off + x.len];
      PokeSound(W(), a, cells);
      mem := mem[x.buf := cells];
      Widen(W(), a, x.off - |vals|, x.len + |vals|);
      ghost var w1 := W();
      ary := ary[a := x.(off := x.off - |vals|, len := x.len + |vals|)];
      PokeThenWiden(w, w1, W(), a, vals + old(Val(W(), a)));
    }

    // mrb_ary_set
    method Set(a: nat, n: int, v: Value) returns (st: Status)
      requires Sound(W()) && a in ary
      modifies this
      ensures st == IndexError <==> FromEnd(n, |old(Val(W(), a))|) < 0
      ensures st == ArgumentError ==> FromEnd(n, |old(Val(W(), a))|) >= maxSize
      ensures st == Done ==> Acts(old(W()), W(), a, WithAt(old(Val(W(), a)), FromEnd(n, |old(Val(W(), a))|), v))
      ensures st != Done ==> Acts(old(W()), W(), a, old(Val(W(), a)))
    {
      hide Sound, Kept, Val;
      ghost var w, x := W(), Val(W(), a);
      AryModify(a);
      SoundNow(w, a, x);
      var i, len := n, ary[a].len;
      if i < 0 {
        i := i + len;
        if i < 0 {
          return IndexError;
        }
      }
      if len <= i {
        if ary[a].aux.capa <= i {
          ghost var w1 := W();
          var ok := ExpandCapa(a, i + 1);
          ActsTrans(w, w1, W(), a, x, x);
          if !ok {
            return ArgumentError;
          }
          SoundNow(w, a, x);
        }
        ghost var w2 := W();
        var cells := FillWithNil(mem[ary[a].buf], len, i + 1 - len);
        cells := cells[i := v];
        assert cells[..i + 1] == x + Nils(i - len) + [v];
        StoreCells(a, cells, i + 1);
        ActsTrans(w, w2, W(), a, x, x + Nils(i - len) + [v]);
      } else {
        ghost var w2 := W();
        var cells := mem[ary[a].buf][i := v];
        assert cells[..len] == x[i := v];
        StoreCells(a, cells, len);
        ActsTrans(w, w2, W(), a, x, x[i := v]);
      }
      return Done;
    }

    // The values an operand stands for; argv points into the operand's own buffer.
    method Operands(rpl: Operand) returns (argv: seq<Value>)
      requires Sound(W()) && (rpl.Of? ==> rpl.b in ary)
      ensures argv == OperandVal(W(), rpl)
    {
      match rpl
      case One(v) => argv := [v];
      case Of(b) =>
        hide Sound;
        LengthFacts(W(), b);
        argv := mem[ary[b].buf][ary[b].off..ary[b].off + ary[b].len];
    }

    // mrb_ary_splice from the clipping of the length on
    method SpliceAt(a: nat, head: nat, length: nat, argv: seq<Value>) returns (ok: bool)
      requires Sound(W()) && a in ary && ary[a].aux.Capa?
      modifies this
      ensures ok ==> Acts(old(W()), W(), a, Spliced(old(Val(W(), a)), head, length, argv))
      ensures !ok ==> |Spliced(old(Val(W(), a)), head, length, argv)| > maxSize && Acts(old(W()), W(), a, old(Val(W(), a)))
    {
      hide Sound, Kept, Val, Spliced, Overwritten;
      ghost var w, x := W(), Val(W(), a);
      Stays(w, a);
      SoundNow(w, a, x);
      var len, alen := length as int, ary[a].len;
      if alen < len || alen < head + len {
        len := alen - head;
      }
      var tail := head + len;
      var size := head + |argv|;
      if tail < alen {
        size := size + (alen - tail);
      }
      SplicedLength(x, head, length, argv);
      if size > ary[a].aux.capa {
        var ok := ExpandCapa(a, size);
        if !ok {
          return false;
        }
        SoundNow(w, a, x);
      }
      ghost var w2 := W();
      var cells := MakeRoom(mem[ary[a].buf], alen, head, tail, |argv|);
      cells := ArrayCopy(cells, head, argv);
      RoomFilled(mem[ary[a].buf], cells, x, head, length, argv);
      StoreCells(a, cells, size);
      ActsTrans(w, w2, W(), a, x, Spliced(x, head, length, argv));
      return true;
    }

    // mrb_ary_splice, with an operand that is not the receiver
    method Splice(a: nat, start: int, length: int, rpl: Operand) returns (st: Status)
      requires Sound(W()) && a in ary && (rpl.Of? ==> rpl.b in ary && rpl.b != a)
      modifies this
      ensures st == IndexError <==> length < 0 || FromEnd(start, |old(Val(W(), a))|) < 0
      ensures st == Done ==> Acts(old(W()), W(), a, Spliced(old(Val(W(), a)), FromEnd(start, |old(Val(W(), a))|), length, old(OperandVal(W(), rpl))))
      ensures st == ArgumentError ==> |Spliced(old(Val(W(), a)), FromEnd(start, |old(Val(W(), a))|), length, old(OperandVal(W(), rpl)))| > maxSize
      ensures st != Done ==> Acts(old(W()), W(), a, old(Val(W(), a)))
    {
      hide Sound, Kept, Val, Spliced, OperandVal;
      ghost var w, x := W(), Val(W(), a);
      AryModify(a);
      SoundNow(w, a, x);
      if length < 0 {
        return IndexError;
      }
      var head := start;
      if head < 0 {
        head := head + ary[a].len;
        if head < 0 {
          return IndexError;
        }
      }
      ghost var w1 := W();
      SameOperand(w, w1, a, x, rpl);
      var argv := Operands(rpl);
      var ok := SpliceAt(a, head, length, argv);
      ActsTrans(w, w1, W(), a, x, if ok then Spliced(x, head, length, argv) else x);
      return if ok then Done else ArgumentError;
    }

    // mrb_ary_aget with a start and a length: nothing, a new empty array, or a view of this one
    method Aget(a: nat, start: int, length: int) returns (b: nat, found: bool)
      requires Sound(W()) && a in ary
      modifies this
      ensures found <==> 0 <= FromEnd(start, |old(Val(W(), a))|) <= |old(Val(W(), a))| && length >= 0
      ensures !found ==> W() == old(W())
      ensures found ==> b !in old(ary) && Acts(old(W()), W(), b, Stretch(old(Val(W(), a)), FromEnd(start, |old(Val(W(), a))|), length))
    {
      hide Sound, Kept, Val;
      LengthFacts(W(), a);
      ghost var w, x := W(), Val(W(), a);
      var i, len, alen := start, length, ary[a].len;
      b := 0;
      if i < 0 {
        i := i + alen;
      }
      if i < 0 || alen < i {
        return 0, false;
      }
      if len < 0 {
        return 0, false;
      }
      if alen == i {
        b := New([]);
        return b, true;
      }
      if len > alen - i {
        len := alen - i;
      }
      b := Subseq(a, i, len);
      return b, true;
    }

    // ary_subseq
    method Subseq(a: nat, beg: nat, len: nat) returns (b: nat)
      requires Sound(W()) && a in ary && beg + len <= ary[a].len
      modifies this
      ensures b !in old(ary) && beg + len <= |old(Val(W(), a))| && Acts(old(W()), W(), b, old(Val(W(), a))[beg..beg + len])
    {
      hide Sound, Kept, Val;
      LengthFacts(W(), a);
      ghost var w, x := W(), Val(W(), a);
      AryMakeShared(a);
      SoundNow(w, a, x);
      ghost var w1 := W();
      AttachSound(W(), a, beg, len);
      var y := ary[a];
      b := id;
      ary := ary[b := Ary(y.buf, y.off + beg, len, y.aux)];
      shr := shr[y.aux.s := shr[y.aux.s].(refcnt := shr[y.aux.s].refcnt + 1)];
      id := id + 1;
      SharedThenAttached(w, w1, W(), a, b, x, x[beg..beg + len]);
    }

    // mrb_ary_new_from_values
    method New(vals: seq<Value>) returns (a: nat)
      requires Sound(W())
      modifies this
      ensures a !in old(ary) && Acts(old(W()), W(), a, vals)
    {
      hide Sound, Kept, Val;
      CreatedSound(W(), vals);
      var cells := ArrayCopy(Nils(|vals|), 0, vals);
      assert cells == vals;
      a := id;
      mem := mem[id + 1 := cells];
      ary := ary[a := Ary(id + 1, 0, |vals|, Capa(|vals|))];
      id := id + 2;
    }

    // the array's part of obj_free
    method Free(a: nat)
      requires Sound(W()) && a in ary
      modifies this
      ensures Sound(W()) && Kept(old(W()), W(), a) && a !in ary
    {
      hide Sound, Kept;
      DroppedSound(W(), a);
      LengthFacts(W(), a);
      var x := ary[a];
      ary := ary - {a};
      if x.aux.Shared? {
        DecrefBlock(x.aux.s);
      } else {
        mem := mem - {x.buf};
      }
    }
  }
}
