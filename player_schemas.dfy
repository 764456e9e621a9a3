/** How the two `Player` records meet on the wire: the client's key list is
    the server's with the members only the server has taken out, so each
    side reads the other's encoding and fills in what it can. */
module PlayerSchemas {
  import opened Wire
  import S = ServerPlayer
  import C = ClientPlayer

  /** The server's slot for each client slot: the member of the same name. */
  function Embed(s: C.PlayerSlot): S.PlayerSlot
  {
    match s
    case FlagSlot(f) => FlagSlot(match f case Fire => S.Fire case Dead => S.Dead)
    case VecSlot(v, a) => VecSlot(match v case Pos => S.Pos case HandPos => S.HandPos, a)
    case QuatSlot(q, c) => QuatSlot(match q case Rotation => S.Rotation case HandRotation => S.HandRotation, c)
  }

  /** Whether the client record has a server slot too. */
  predicate Shared(s: S.PlayerSlot)
  {
    match s
    case FlagSlot(f) => f == S.Fire || f == S.Dead
    case VecSlot(v, _) => v != S.HeadPos
    case QuatSlot(q, _) => q != S.HeadRotation
  }

  /** The client slot of a shared server slot. */
  function Restrict(s: S.PlayerSlot): (r: C.PlayerSlot)
    requires Shared(s)
    ensures Embed(r) == s
  {
    match s
    case FlagSlot(f) => FlagSlot(if f == S.Fire then C.Fire else C.Dead)
    case VecSlot(v, a) => VecSlot(if v == S.Pos then C.Pos else C.HandPos, a)
    case QuatSlot(q, c) => QuatSlot(if q == S.Rotation then C.Rotation else C.HandRotation, c)
  }

  /** A client slot and its server slot have the same key. */
  lemma EmbedKeepsKey(s: C.PlayerSlot)
    ensures Shared(Embed(s))
    ensures S.KeyOf(Embed(s)) == C.KeyOf(s)
  {
    match s
    case FlagSlot(f) =>
    case VecSlot(v, a) => C.VecKeyIsDotted(v, a); S.VecKeyIsDotted(Embed(s).vec, a);
    case QuatSlot(q, c) => C.QuatKeyIsDotted(q, c); S.QuatKeyIsDotted(Embed(s).quat, c);
  }

  /** A server key that is not shared is not a client key. */
  lemma ServerOnlyKey(s: S.PlayerSlot, cs: C.PlayerSlot)
    requires !Shared(s)
    ensures C.KeyOf(cs) != S.KeyOf(s)
  {
    EmbedKeepsKey(cs);
    if C.KeyOf(cs) == S.KeyOf(s) {
      S.KeyOfInjective(Embed(cs), s);
    }
  }

  /** The server's slots for a list of client slots. */
  function EmbedAll(ss: seq<C.PlayerSlot>): seq<S.PlayerSlot>
  {
    seq(|ss|, i requires 0 <= i < |ss| => Embed(ss[i]))
  }

  lemma EmbedAllAppend(a: seq<C.PlayerSlot>, b: seq<C.PlayerSlot>)
    ensures EmbedAll(a + b) == EmbedAll(a) + EmbedAll(b)
  {
  }

  /** The server's key list, cut where the client's differs from it. */
  lemma ServerSlotSlices()
    ensures |S.Slots| == 25
    ensures S.Slots[..2] == [FlagSlot(S.Fire), FlagSlot(S.Dead)]
    ensures S.Slots[2..4] == [FlagSlot(S.PickedUp), FlagSlot(S.FinishFire)]
    ensures S.Slots[4..18] ==
      (Group(VecMember(S.Pos)) + Group(QuatMember(S.Rotation))) +
      (Group(VecMember(S.HandPos)) + Group(QuatMember(S.HandRotation)))
    ensures S.Slots[18..] == Group(VecMember(S.HeadPos)) + Group(QuatMember(S.HeadRotation))
  {
    S.SlotsLayout();
    var flags: seq<S.PlayerSlot> := [FlagSlot(S.Fire), FlagSlot(S.Dead)];
    var added: seq<S.PlayerSlot> := [FlagSlot(S.PickedUp), FlagSlot(S.FinishFire)];
    var pos := Group(VecMember(S.Pos)) + Group(QuatMember(S.Rotation));
    var hand := Group(VecMember(S.HandPos)) + Group(QuatMember(S.HandRotation));
    var head := Group(VecMember(S.HeadPos)) + Group(QuatMember(S.HeadRotation));
    FiveSlices(flags, added, pos, hand, head);
  }

  /** The client's key list, in server slots. */
  lemma EmbedClientSlots()
    ensures EmbedAll(C.Slots) ==
      [FlagSlot(S.Fire), FlagSlot(S.Dead)] +
      ((Group(VecMember(S.Pos)) + Group(QuatMember(S.Rotation))) +
       (Group(VecMember(S.HandPos)) + Group(QuatMember(S.HandRotation))))
  {
    C.SlotsLayout();
    var cflags: seq<C.PlayerSlot> := [FlagSlot(C.Fire), FlagSlot(C.Dead)];
    var cpos := Group(VecMember(C.Pos)) + Group(QuatMember(C.Rotation));
    var chand := Group(VecMember(C.HandPos)) + Group(QuatMember(C.HandRotation));
    EmbedAllAppend(cflags, cpos + chand);
    EmbedAllAppend(cpos, chand);
    assert cflags + cpos + chand == cflags + (cpos + chand);
    EmbedChunks();
  }

  lemma EmbedChunks()
    ensures EmbedAll([FlagSlot(C.Fire), FlagSlot(C.Dead)]) == [FlagSlot(S.Fire), FlagSlot(S.Dead)]
    ensures EmbedAll(Group(VecMember(C.Pos)) + Group(QuatMember(C.Rotation))) ==
      Group(VecMember(S.Pos)) + Group(QuatMember(S.Rotation))
    ensures EmbedAll(Group(VecMember(C.HandPos)) + Group(QuatMember(C.HandRotation))) ==
      Group(VecMember(S.HandPos)) + Group(QuatMember(S.HandRotation))
  {
  }

  /** The client's key list is the server's with the server's slots
      `pickedUp`, `finishFire` (third and fourth) and the seven head slots
      (at the end) taken out. */
  lemma ClientSlotsInServer()
    ensures |S.Slots| == 25
    ensures EmbedAll(C.Slots) == S.Slots[..2] + S.Slots[4..18]
  {
    ServerSlotSlices();
    EmbedClientSlots();
  }

  /** The client's keys are the server's with `pickedUp` and `finishFire`
      taken out after the first two flags and `headPos` and `headrotation`
      taken off the end. */
  lemma ClientKeysAreServerSlices<F>(c: C.Player<F>, p: S.Player<F>)
    ensures |Keys(S.Encode(p))| == 25
    ensures Keys(C.Encode(c)) == Keys(S.Encode(p))[..2] + Keys(S.Encode(p))[4..18]
  {
    var server, client := Keys(S.Encode(p)), Keys(C.Encode(c));
    assert |client| == 16 && |server| == 25 by { ClientSlotsInServer(); }
    forall k | 0 <= k < 16
      ensures client[k] == server[if k < 2 then k else k + 2]
    {
      ClientKeyAt(c, p, k);
    }
    TwoSlicesFrom(client, server);
  }

  lemma TwoSlicesFrom<T>(small: seq<T>, big: seq<T>)
    requires |small| == 16 && |big| == 25
    requires forall k :: 0 <= k < 16 ==> small[k] == big[if k < 2 then k else k + 2]
    ensures small == big[..2] + big[4..18]
  {
    forall k | 0 <= k < 16
      ensures small[k] == (big[..2] + big[4..18])[k]
    {
      TwoSlicesAt(big, k);
    }
  }

  /** The `k`-th client key is the server key at the `k`-th position of the
      slices. */
  lemma ClientKeyAt<F>(c: C.Player<F>, p: S.Player<F>, k: nat)
    requires k < |C.Slots|
    ensures |C.Slots| == 16 && |S.Slots| == 25
    ensures Keys(C.Encode(c))[k] == Keys(S.Encode(p))[if k < 2 then k else k + 2]
  {
    ClientSlotsInServer();
    var j := if k < 2 then k else k + 2;
    var cs := C.Slots[k];
    EmbedKeepsKey(cs);
    assert Embed(cs) == EmbedAll(C.Slots)[k];
    TwoSlicesAt(S.Slots, k);
    assert Keys(C.Encode(c))[k] == C.KeyOf(cs);
    assert Keys(S.Encode(p))[j] == S.KeyOf(S.Slots[j]);
  }

  lemma TwoSlicesAt<T>(a: seq<T>, k: nat)
    requires |a| >= 18 && k < 16
    ensures (a[..2] + a[4..18])[k] == a[if k < 2 then k else k + 2]
  {
  }

  /** The keys the server adds: `pickedUp` and `finishFire` after the first
      two flags, and `headPos` and `headrotation` at the end. */
  lemma ServerOnlyKeys<F>(p: S.Player<F>)
    ensures Keys(S.Encode(p))[2..4] == ["pickedUp", "finishFire"]
    ensures Keys(S.Encode(p))[18..] == S.HeadKeyList
  {
    AddedFlagKeys(p);
    HeadKeysLast(p);
  }

  lemma AddedFlagKeys<F>(p: S.Player<F>)
    ensures Keys(S.Encode(p))[2..4] == ["pickedUp", "finishFire"]
  {
    var added: seq<S.PlayerSlot> := [FlagSlot(S.PickedUp), FlagSlot(S.FinishFire)];
    assert S.Slots[2..4] == added by { ServerSlotSlices(); }
    EncodeKeysSlice(p, 2, 4);
    AddedFlagKeyList();
  }

  lemma AddedFlagKeyList()
    ensures S.KeysOf([FlagSlot(S.PickedUp), FlagSlot(S.FinishFire)]) == ["pickedUp", "finishFire"]
  {
  }

  lemma HeadKeysLast<F>(p: S.Player<F>)
    ensures Keys(S.Encode(p))[18..] == S.HeadKeyList
  {
    var head := Group(VecMember(S.HeadPos)) + Group(QuatMember(S.HeadRotation));
    assert |S.Slots| == 25 && S.Slots[18..] == head by { ServerSlotSlices(); }
    EncodeKeysSlice(p, 18, 25);
    S.HeadKeys();
  }

  lemma EncodeKeysSlice<F>(p: S.Player<F>, a: nat, b: nat)
    requires a <= b <= |S.Slots|
    ensures Keys(S.Encode(p))[a..b] == S.KeysOf(S.Slots[a..b])
  {
    S.KeysOfEncode(p);
    S.KeysOfSlice(S.Slots, a, b);
  }

  lemma FiveSlices<T>(f: seq<T>, a: seq<T>, x: seq<T>, y: seq<T>, h: seq<T>)
    ensures (f + a + x + y + h)[..|f|] == f
    ensures (f + a + x + y + h)[|f|..|f| + |a|] == a
    ensures (f + a + x + y + h)[|f| + |a|..|f| + |a| + |x| + |y|] == x + y
    ensures (f + a + x + y + h)[|f| + |a| + |x| + |y|..] == h
  {
    var all := f + a + x + y + h;
    assert all == f + (a + (x + y) + h);
    assert all[|f|..] == a + (x + y) + h;
    assert all[|f| + |a|..] == (x + y) + h;
  }

  /** The client's keys occur among the server's in the same relative order. */
  lemma ClientKeysInServerOrder<F>(c: C.Player<F>, p: S.Player<F>)
    ensures Subsequence(Keys(C.Encode(c)), Keys(S.Encode(p)), Span(0, 2) + Span(4, 18))
  {
    ClientKeysAreServerSlices(c, p);
    SlicesSubsequence(Keys(C.Encode(c)), Keys(S.Encode(p)), 2, 4, 18);
  }

  /** The server's record with the client's members taken from `c` and the
      others from `into`. */
  function Widen<F>(c: C.Player<F>, into: S.Player<F>): S.Player<F>
  {
    S.Player(c.fire, into.pickedUp, into.finishFire, c.dead, c.pos, c.rotation,
             c.handpos, c.handrotation, into.headPos, into.headrotation)
  }

  /** The client's members of a server record. */
  function Narrow<F>(p: S.Player<F>): C.Player<F>
  {
    C.Player(p.fire, p.dead, p.pos, p.rotation, p.handpos, p.handrotation)
  }

  lemma GetEmbed<F>(c: C.Player<F>, into: S.Player<F>, p: S.Player<F>, s: C.PlayerSlot)
    ensures S.Get(Widen(c, into), Embed(s)) == C.Get(c, s)
    ensures S.Get(p, Embed(s)) == C.Get(Narrow(p), s)
  {
    match s
    case FlagSlot(f) =>
    case VecSlot(v, a) => match v { case Pos => case HandPos => }
    case QuatSlot(q, c) => match q { case Rotation => case HandRotation => }
  }

  lemma GetServerOnly<F>(c: C.Player<F>, into: S.Player<F>, s: S.PlayerSlot)
    requires !Shared(s)
    ensures S.Get(Widen(c, into), s) == S.Get(into, s)
  {
  }

  /** The server reads a client's record into `into` as the client's members
      with the server's own members left as they were. */
  lemma ServerReadsClient<F>(c: C.Player<F>, into: S.Player<F>)
    ensures S.Decode(C.Encode(c), into) == Ok(Widen(c, into))
  {
    var m := C.Encode(c);
    forall s: S.PlayerSlot
      ensures S.Field(m, into, s) == S.Get(Widen(c, into), s)
    {
      if Shared(s) {
        var cs := Restrict(s);
        EmbedKeepsKey(cs);
        C.LookupEncode(c, cs);
        GetEmbed(c, into, into, cs);
      } else {
        forall cs: C.PlayerSlot
          ensures C.KeyOf(cs) != S.KeyOf(s)
        {
          ServerOnlyKey(s, cs);
        }
        C.LookupEncodeUnknown(c, S.KeyOf(s));
        GetServerOnly(c, into, s);
      }
    }
    S.DecodeOwnFields(m, into, Widen(c, into));
  }

  /** A client reads a server's record as its own members of it; the keys
      it does not know are ignored. */
  lemma ClientReadsServer<F>(p: S.Player<F>, into: C.Player<F>)
    ensures C.Decode(S.Encode(p), into) == Ok(Narrow(p))
  {
    var m := S.Encode(p);
    forall cs: C.PlayerSlot
      ensures C.Field(m, into, cs) == C.Get(Narrow(p), cs)
    {
      EmbedKeepsKey(cs);
      S.LookupEncode(p, Embed(cs));
      GetEmbed(Narrow(p), S.Player(p.fire, p.pickedUp, p.finishFire, p.dead, p.pos, p.rotation,
        p.handpos, p.handrotation, p.headPos, p.headrotation), p, cs);
    }
    C.DecodeOwnFields(m, into, Narrow(p));
  }
}
