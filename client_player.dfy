/** The client's `Player` record and the key list its serialiser is
    generated from: the server's record without `pickedUp`, `finishFire`,
    `headPos` and `headrotation`. */
module ClientPlayer {
  import opened Wire

  /** The record's members of each kind. */
  datatype FlagName = Fire | Dead
  datatype VecName = Pos | HandPos
  datatype QuatName = Rotation | HandRotation

  type PlayerMember = Member<FlagName, VecName, QuatName>
  type PlayerSlot = Slot<FlagName, VecName, QuatName>

  datatype Player<F> = Player(
    fire: bool,
    dead: bool,
    pos: Vec3<F>,
    rotation: Quat<F>,
    handpos: Vec3<F>,
    handrotation: Quat<F>)

  /** The members in the order the record declares them. */
  const Declared: seq<PlayerMember> := [
    FlagMember(Fire), FlagMember(Dead),
    VecMember(Pos), QuatMember(Rotation),
    VecMember(HandPos), QuatMember(HandRotation)]

  /** The members in the order the key list names them. */
  const Order: seq<PlayerMember> := [
    FlagMember(Fire), FlagMember(Dead),
    VecMember(Pos), QuatMember(Rotation),
    VecMember(HandPos), QuatMember(HandRotation)]

  /** The key list, one scalar slot per macro argument: the members in key
      list order, vectors as x, y, z and quaternions as x, y, z, w. */
  const Slots: seq<PlayerSlot> := Expand(Order)

  function FlagKey(f: FlagName): string
  {
    match f
    case Fire => "fire"
    case Dead => "dead"
  }

  function VecKey(v: VecName): string
  {
    match v
    case Pos => "pos"
    case HandPos => "handpos"
  }

  function QuatKey(q: QuatName): string
  {
    match q
    case Rotation => "rotation"
    case HandRotation => "handrotation"
  }

  /** The key of a slot: the stringised macro argument. */
  function KeyOf(s: PlayerSlot): string
  {
    match s
    case FlagSlot(f) => FlagKey(f)
    case VecSlot(Pos, a) => (match a case X => "pos.x" case Y => "pos.y" case Z => "pos.z")
    case VecSlot(HandPos, a) => (match a case X => "handpos.x" case Y => "handpos.y" case Z => "handpos.z")
    case QuatSlot(Rotation, c) =>
      (match c case Imag(X) => "rotation.x" case Imag(Y) => "rotation.y"
               case Imag(Z) => "rotation.z" case Real => "rotation.w")
    case QuatSlot(HandRotation, c) =>
      (match c case Imag(X) => "handrotation.x" case Imag(Y) => "handrotation.y"
               case Imag(Z) => "handrotation.z" case Real => "handrotation.w")
  }

  /** Each vector component key is the member's name, a dot and the
      component's name. */
  lemma VecKeyIsDotted(v: VecName, a: Axis)
    ensures KeyOf(VecSlot(v, a)) == Dotted(VecKey(v), AxisName(a))
  {
  }

  /** Each quaternion component key is the member's name, a dot and the
      component's name. */
  lemma QuatKeyIsDotted(q: QuatName, c: QuatPart)
    ensures KeyOf(QuatSlot(q, c)) == Dotted(QuatKey(q), PartName(c))
  {
  }

  /** The members of a record, by name. */
  function FlagOf<F>(p: Player<F>, f: FlagName): bool
  {
    match f case Fire => p.fire case Dead => p.dead
  }

  function VecOf<F>(p: Player<F>, v: VecName): Vec3<F>
  {
    match v case Pos => p.pos case HandPos => p.handpos
  }

  function QuatOf<F>(p: Player<F>, q: QuatName): Quat<F>
  {
    match q case Rotation => p.rotation case HandRotation => p.handrotation
  }

  /** The scalar a slot names in a record. */
  function Get<F>(p: Player<F>, s: PlayerSlot): Value<F>
  {
    match s
    case FlagSlot(f) => Bool(FlagOf(p, f))
    case VecSlot(v, a) => Float(VecPart(VecOf(p, v), a))
    case QuatSlot(q, c) => Float(QuatComponent(QuatOf(p, q), c))
  }

  /** Serialise a record: one entry per slot, in key-list order. */
  function Encode<F>(p: Player<F>): seq<(string, Value<F>)>
  {
    seq(|Slots|, i requires 0 <= i < |Slots| => (KeyOf(Slots[i]), Get(p, Slots[i])))
  }

  /** The value the slot `s` receives when `m` is read into the record
      `into`: the first entry under its key, or the value it had in `into`
      when the key is absent. */
  function Field<F>(m: seq<(string, Value<F>)>, into: Player<F>, s: PlayerSlot): Value<F>
  {
    LookupOr(m, KeyOf(s), Get(into, s))
  }

  /** Whether every component of the vector member `v` receives a number. */
  predicate VecFits<F>(m: seq<(string, Value<F>)>, into: Player<F>, v: VecName)
  {
    Field(m, into, VecSlot(v, X)).Float? && Field(m, into, VecSlot(v, Y)).Float? &&
    Field(m, into, VecSlot(v, Z)).Float?
  }

  predicate QuatFits<F>(m: seq<(string, Value<F>)>, into: Player<F>, q: QuatName)
  {
    Field(m, into, QuatSlot(q, Imag(X))).Float? && Field(m, into, QuatSlot(q, Imag(Y))).Float? &&
    Field(m, into, QuatSlot(q, Imag(Z))).Float? && Field(m, into, QuatSlot(q, Real)).Float?
  }

  function VecField<F>(m: seq<(string, Value<F>)>, into: Player<F>, v: VecName): Vec3<F>
    requires VecFits(m, into, v)
  {
    Vec3(Field(m, into, VecSlot(v, X)).f, Field(m, into, VecSlot(v, Y)).f, Field(m, into, VecSlot(v, Z)).f)
  }

  function QuatField<F>(m: seq<(string, Value<F>)>, into: Player<F>, q: QuatName): Quat<F>
    requires QuatFits(m, into, q)
  {
    Quat(Field(m, into, QuatSlot(q, Imag(X))).f, Field(m, into, QuatSlot(q, Imag(Y))).f,
         Field(m, into, QuatSlot(q, Imag(Z))).f, Field(m, into, QuatSlot(q, Real)).f)
  }

  /** Whether every slot receives a value of its kind. */
  predicate AllFit<F>(m: seq<(string, Value<F>)>, into: Player<F>)
  {
    && Field(m, into, FlagSlot(Fire)).Bool? && Field(m, into, FlagSlot(Dead)).Bool?
    && VecFits(m, into, Pos) && QuatFits(m, into, Rotation)
    && VecFits(m, into, HandPos) && QuatFits(m, into, HandRotation)
  }

  /** Read a map into the record `into`: a slot whose key is absent keeps its
      value, a value of the wrong kind anywhere is a type error, and keys
      that name no slot are ignored. */
  function Decode<F>(m: seq<(string, Value<F>)>, into: Player<F>): Result<Player<F>>
  {
    if AllFit(m, into) then
      Ok(Player(Field(m, into, FlagSlot(Fire)).b, Field(m, into, FlagSlot(Dead)).b,
                VecField(m, into, Pos), QuatField(m, into, Rotation),
                VecField(m, into, HandPos), QuatField(m, into, HandRotation)))
    else
      TypeError
  }

  /** The three components of a vector member decode to the vector. */
  lemma VecFromFields<F>(m: seq<(string, Value<F>)>, into: Player<F>, p: Player<F>, v: VecName)
    requires Field(m, into, VecSlot(v, X)) == Get(p, VecSlot(v, X))
    requires Field(m, into, VecSlot(v, Y)) == Get(p, VecSlot(v, Y))
    requires Field(m, into, VecSlot(v, Z)) == Get(p, VecSlot(v, Z))
    ensures VecFits(m, into, v) && VecField(m, into, v) == VecOf(p, v)
  {
  }

  /** The four components of a quaternion member decode to the quaternion. */
  lemma QuatFromFields<F>(m: seq<(string, Value<F>)>, into: Player<F>, p: Player<F>, q: QuatName)
    requires Field(m, into, QuatSlot(q, Imag(X))) == Get(p, QuatSlot(q, Imag(X)))
    requires Field(m, into, QuatSlot(q, Imag(Y))) == Get(p, QuatSlot(q, Imag(Y)))
    requires Field(m, into, QuatSlot(q, Imag(Z))) == Get(p, QuatSlot(q, Imag(Z)))
    requires Field(m, into, QuatSlot(q, Real)) == Get(p, QuatSlot(q, Real))
    ensures QuatFits(m, into, q) && QuatField(m, into, q) == QuatOf(p, q)
  {
  }

  /** A map from which every member receives its value in `p` decodes to
      `p`. */
  lemma DecodeFromMembers<F>(m: seq<(string, Value<F>)>, into: Player<F>, p: Player<F>)
    requires forall f :: Field(m, into, FlagSlot(f)) == Bool(FlagOf(p, f))
    requires forall v :: VecFits(m, into, v) && VecField(m, into, v) == VecOf(p, v)
    requires forall q :: QuatFits(m, into, q) && QuatField(m, into, q) == QuatOf(p, q)
    ensures Decode(m, into) == Ok(p)
  {
    assert Field(m, into, FlagSlot(Fire)) == Bool(p.fire);
    assert Field(m, into, FlagSlot(Dead)) == Bool(p.dead);
    assert VecOf(p, Pos) == p.pos && VecOf(p, HandPos) == p.handpos;
    assert QuatOf(p, Rotation) == p.rotation && QuatOf(p, HandRotation) == p.handrotation;
  }

  /** Conversely, a successful decode gives every member the value it
      receives from the map. */
  lemma DecodeMembers<F>(m: seq<(string, Value<F>)>, into: Player<F>)
    requires Decode(m, into).Ok?
    ensures forall f :: Field(m, into, FlagSlot(f)) == Bool(FlagOf(Decode(m, into).value, f))
    ensures forall v :: VecFits(m, into, v) && VecField(m, into, v) == VecOf(Decode(m, into).value, v)
    ensures forall q :: QuatFits(m, into, q) && QuatField(m, into, q) == QuatOf(Decode(m, into).value, q)
  {
    var p := Decode(m, into).value;
    forall f ensures Field(m, into, FlagSlot(f)) == Bool(FlagOf(p, f)) {
      match f { case Fire => case Dead => }
    }
    forall v ensures VecFits(m, into, v) && VecField(m, into, v) == VecOf(p, v) {
      match v { case Pos => case HandPos => }
    }
    forall q ensures QuatFits(m, into, q) && QuatField(m, into, q) == QuatOf(p, q) {
      match q { case Rotation => case HandRotation => }
    }
  }

  /** A component of a decoded vector is the value its slot receives. */
  lemma VecFieldPart<F>(m: seq<(string, Value<F>)>, into: Player<F>, v: VecName, a: Axis)
    requires VecFits(m, into, v)
    ensures Field(m, into, VecSlot(v, a)) == Float(VecPart(VecField(m, into, v), a))
  {
    match a { case X => case Y => case Z => }
  }

  lemma QuatFieldPart<F>(m: seq<(string, Value<F>)>, into: Player<F>, q: QuatName, c: QuatPart)
    requires QuatFits(m, into, q)
    ensures Field(m, into, QuatSlot(q, c)) == Float(QuatComponent(QuatField(m, into, q), c))
  {
    match c { case Imag(a) => match a { case X => case Y => case Z => } case Real => }
  }

  lemma FlagKeyNoDot(f: FlagName)
    ensures '.' !in FlagKey(f)
  {
  }

  lemma BaseNames()
    ensures forall v :: '.' !in VecKey(v)
    ensures forall q :: '.' !in QuatKey(q)
    ensures forall v1, v2 :: VecKey(v1) == VecKey(v2) ==> v1 == v2
    ensures forall q1, q2 :: QuatKey(q1) == QuatKey(q2) ==> q1 == q2
    ensures forall v, q :: VecKey(v) != QuatKey(q)
  {
  }

  /** A component key has a dot after the member's name, and a flag key has
      none, so no flag shares a key with a component. */
  lemma FlagKeyNotComponent(f: FlagName, s: PlayerSlot)
    requires !s.FlagSlot?
    ensures FlagKey(f) != KeyOf(s)
  {
    FlagKeyNoDot(f);
    match s {
      case VecSlot(v, a) => VecKeyIsDotted(v, a);
      case QuatSlot(q, c) => QuatKeyIsDotted(q, c);
    }
  }

  lemma VecKeyInjective(v: VecName, a: Axis, s: PlayerSlot)
    requires KeyOf(VecSlot(v, a)) == KeyOf(s)
    ensures s == VecSlot(v, a)
  {
    BaseNames();
    VecKeyIsDotted(v, a);
    match s {
      case FlagSlot(f) => FlagKeyNotComponent(f, VecSlot(v, a));
      case VecSlot(v2, a2) =>
        VecKeyIsDotted(v2, a2);
        DottedInjective(VecKey(v), AxisName(a), VecKey(v2), AxisName(a2));
      case QuatSlot(q2, c2) =>
        QuatKeyIsDotted(q2, c2);
        DottedInjective(VecKey(v), AxisName(a), QuatKey(q2), PartName(c2));
    }
  }

  lemma QuatKeyInjective(q: QuatName, c: QuatPart, s: PlayerSlot)
    requires KeyOf(QuatSlot(q, c)) == KeyOf(s)
    ensures s == QuatSlot(q, c)
  {
    BaseNames();
    QuatKeyIsDotted(q, c);
    match s {
      case FlagSlot(f) => FlagKeyNotComponent(f, QuatSlot(q, c));
      case VecSlot(v2, a2) =>
        VecKeyIsDotted(v2, a2);
        DottedInjective(QuatKey(q), PartName(c), VecKey(v2), AxisName(a2));
      case QuatSlot(q2, c2) =>
        QuatKeyIsDotted(q2, c2);
        DottedInjective(QuatKey(q), PartName(c), QuatKey(q2), PartName(c2));
    }
  }

  /** Different slots have different keys. */
  lemma KeyOfInjective(s1: PlayerSlot, s2: PlayerSlot)
    requires KeyOf(s1) == KeyOf(s2)
    ensures s1 == s2
  {
    match s1
    case FlagSlot(f1) =>
      if s2.FlagSlot? {
        assert FlagKey(f1) == FlagKey(s2.flag);
      } else {
        FlagKeyNotComponent(f1, s2);
      }
    case VecSlot(v1, a1) => VecKeyInjective(v1, a1, s2);
    case QuatSlot(q1, c1) => QuatKeyInjective(q1, c1, s2);
  }

  /** Every member of the record is declared once, and the key list names
      the members in declaration order. */
  lemma MembersCoveredOnce()
    ensures forall m: PlayerMember :: m in Declared
    ensures Distinct(Declared)
    ensures Order == Declared
  {
    forall m: PlayerMember
      ensures m in Declared
    {
      match m
      case FlagMember(f) => match f { case Fire => case Dead => }
      case VecMember(v) => match v { case Pos => case HandPos => }
      case QuatMember(q) => match q { case Rotation => case HandRotation => }
    }
  }

  /** The key list has 16 slots and covers every scalar of the record exactly
      once. */
  lemma SlotsCoveredOnce()
    ensures |Slots| == 16
    ensures forall s: PlayerSlot :: s in Slots
    ensures Distinct(Slots)
  {
    SlotsLayout();
    SlotsDistinct();
    forall s: PlayerSlot
      ensures s in Slots
    {
      var _ := SlotIndex(s);
    }
  }

  lemma SlotsDistinct()
    ensures Distinct(Slots)
  {
    MembersCoveredOnce();
    ExpandDistinct(Order);
  }

  /** Where a scalar of the record sits in the key list. */
  lemma SlotIndex(s: PlayerSlot) returns (i: nat)
    ensures i < |Slots| && Slots[i] == s
  {
    MembersCoveredOnce();
    assert Owner(s) in Order;
    ExpandCovers(Order, s);
    i :| 0 <= i < |Slots| && Slots[i] == s;
  }

  /** The keys of a list of slots, in order. */
  function KeysOf(ss: seq<PlayerSlot>): (ks: seq<string>)
    ensures |ks| == |ss|
    ensures forall i :: 0 <= i < |ss| ==> ks[i] == KeyOf(ss[i])
  {
    seq(|ss|, i requires 0 <= i < |ss| => KeyOf(ss[i]))
  }

  /** The key list's members, as the flags and then each vector with the
      quaternion after it. */
  lemma OrderChunks()
    ensures Order ==
      [FlagMember(Fire), FlagMember(Dead)] +
      [VecMember(Pos), QuatMember(Rotation)] + [VecMember(HandPos), QuatMember(HandRotation)]
  {
  }

  /** The key list, chunk by chunk: the flags, then each vector with the
      quaternion that follows it. */
  lemma SlotsLayout()
    ensures Slots ==
      [FlagSlot(Fire), FlagSlot(Dead)] +
      (Group(VecMember(Pos)) + Group(QuatMember(Rotation))) +
      (Group(VecMember(HandPos)) + Group(QuatMember(HandRotation)))
  {
    var a: seq<PlayerMember> := [FlagMember(Fire), FlagMember(Dead)];
    var c: seq<PlayerMember> := [VecMember(Pos), QuatMember(Rotation)];
    var d: seq<PlayerMember> := [VecMember(HandPos), QuatMember(HandRotation)];
    OrderChunks();
    ExpandAppend(a + c, d);
    ExpandAppend(a, c);
    ExpandTwo<FlagName, VecName, QuatName>(FlagMember(Fire), FlagMember(Dead));
    ExpandTwo<FlagName, VecName, QuatName>(VecMember(Pos), QuatMember(Rotation));
    ExpandTwo<FlagName, VecName, QuatName>(VecMember(HandPos), QuatMember(HandRotation));
    assert Group<FlagName, VecName, QuatName>(FlagMember(Fire)) + Group(FlagMember(Dead)) == [FlagSlot(Fire), FlagSlot(Dead)];
  }

  lemma KeysOfAppend(a: seq<PlayerSlot>, b: seq<PlayerSlot>)
    ensures KeysOf(a + b) == KeysOf(a) + KeysOf(b)
  {
  }

  /** The keys of the key list, chunk by chunk. */
  const FlagKeyList: seq<string> := ["fire", "dead"]
  const PosKeyList: seq<string> := ["pos.x", "pos.y", "pos.z",
    "rotation.x", "rotation.y", "rotation.z", "rotation.w"]
  const HandKeyList: seq<string> := ["handpos.x", "handpos.y", "handpos.z",
    "handrotation.x", "handrotation.y", "handrotation.z", "handrotation.w"]

  lemma FlagKeys()
    ensures KeysOf([FlagSlot(Fire), FlagSlot(Dead)]) == FlagKeyList
  {
  }

  lemma PosKeys()
    ensures KeysOf(Group(VecMember(Pos)) + Group(QuatMember(Rotation))) == PosKeyList
  {
  }

  lemma HandKeys()
    ensures KeysOf(Group(VecMember(HandPos)) + Group(QuatMember(HandRotation))) == HandKeyList
  {
  }

  /** The keys of the encoding, in order. */
  lemma KeyLayout<F>(p: Player<F>)
    ensures Keys(Encode(p)) == FlagKeyList + PosKeyList + HandKeyList
  {
    var a: seq<PlayerSlot> := [FlagSlot(Fire), FlagSlot(Dead)];
    var b: seq<PlayerSlot> := Group(VecMember(Pos)) + Group(QuatMember(Rotation));
    var c: seq<PlayerSlot> := Group(VecMember(HandPos)) + Group(QuatMember(HandRotation));
    SlotsLayout();
    assert Slots == a + b + c;
    assert Keys(Encode(p)) == KeysOf(Slots);
    KeysOfAppend(a + b, c);
    KeysOfAppend(a, b);
    FlagKeys();
    PosKeys();
    HandKeys();
  }

  /** The keys of the encoding are pairwise distinct. */
  lemma EncodeKeysDistinct<F>(p: Player<F>)
    ensures Distinct(Keys(Encode(p)))
  {
    SlotsDistinct();
    forall i, j | 0 <= i < j < |Encode(p)|
      ensures Keys(Encode(p))[i] != Keys(Encode(p))[j]
    {
      if KeyOf(Slots[i]) == KeyOf(Slots[j]) {
        KeyOfInjective(Slots[i], Slots[j]);
      }
    }
  }

  /** Looking up a slot's key in the encoding of `p` finds the slot's value
      in `p`. */
  lemma LookupEncode<F>(p: Player<F>, s: PlayerSlot)
    ensures Lookup(Encode(p), KeyOf(s)) == Some(Get(p, s))
  {
    var i := SlotIndex(s);
    EncodeKeysDistinct(p);
    LookupDistinct(Encode(p), i);
  }

  /** A key that names no slot is absent from every encoding. */
  lemma LookupEncodeUnknown<F>(p: Player<F>, k: string)
    requires forall s: PlayerSlot :: KeyOf(s) != k
    ensures Lookup(Encode(p), k) == None
  {
    LookupFirst(Encode(p), k);
    assert forall i :: 0 <= i < |Encode(p)| ==> Encode(p)[i].0 == KeyOf(Slots[i]);
  }

  /** Decoding the encoding of any record, into any record, gives the
      encoded record back. */
  lemma RoundTrip<F>(p: Player<F>, into: Player<F>)
    ensures Decode(Encode(p), into) == Ok(p)
  {
    forall s: PlayerSlot
      ensures Field(Encode(p), into, s) == Get(p, s)
    {
      LookupEncode(p, s);
    }
    DecodeOwnFields(Encode(p), into, p);
  }

  /** A map from which every slot receives its value in `p` decodes to `p`. */
  lemma DecodeOwnFields<F>(m: seq<(string, Value<F>)>, into: Player<F>, p: Player<F>)
    requires forall s: PlayerSlot :: Field(m, into, s) == Get(p, s)
    ensures Decode(m, into) == Ok(p)
  {
    forall f ensures Field(m, into, FlagSlot(f)) == Bool(FlagOf(p, f)) {
      assert Field(m, into, FlagSlot(f)) == Get(p, FlagSlot(f));
    }
    forall v ensures VecFits(m, into, v) && VecField(m, into, v) == VecOf(p, v) {
      VecFromFields(m, into, p, v);
    }
    forall q ensures QuatFits(m, into, q) && QuatField(m, into, q) == QuatOf(p, q) {
      QuatFromFields(m, into, p, q);
    }
    DecodeFromMembers(m, into, p);
  }

  /** A successful decode gives every slot the value it receives from the
      map: the first entry under its key, or its value in `into`. */
  lemma DecodeFields<F>(m: seq<(string, Value<F>)>, into: Player<F>)
    requires Decode(m, into).Ok?
    ensures forall s: PlayerSlot :: Field(m, into, s) == Get(Decode(m, into).value, s)
  {
    var p := Decode(m, into).value;
    DecodeMembers(m, into);
    forall s: PlayerSlot
      ensures Field(m, into, s) == Get(p, s)
    {
      match s
      case FlagSlot(f) =>
      case VecSlot(v, a) => VecFieldPart(m, into, v, a);
      case QuatSlot(q, c) => QuatFieldPart(m, into, q, c);
    }
  }

  /** The value a slot receives has the slot's kind exactly when the entry
      under its key, if any, has it: the target's own value always does. */
  lemma FieldFits<F>(m: seq<(string, Value<F>)>, into: Player<F>, s: PlayerSlot)
    ensures Fits(s, Field(m, into, s)) <==>
      (Lookup(m, KeyOf(s)).Some? ==> Fits(s, Lookup(m, KeyOf(s)).value))
  {
  }

  lemma VecFitsPart<F>(m: seq<(string, Value<F>)>, into: Player<F>, v: VecName, a: Axis)
    requires AllFit(m, into)
    ensures Field(m, into, VecSlot(v, a)).Float?
  {
    assert VecFits(m, into, v) by { match v { case Pos => case HandPos => } }
    match a { case X => case Y => case Z => }
  }

  lemma QuatFitsPart<F>(m: seq<(string, Value<F>)>, into: Player<F>, q: QuatName, c: QuatPart)
    requires AllFit(m, into)
    ensures Field(m, into, QuatSlot(q, c)).Float?
  {
    assert QuatFits(m, into, q) by { match q { case Rotation => case HandRotation => } }
    match c { case Imag(a) => match a { case X => case Y => case Z => } case Real => }
  }

  /** `Decode`'s kind test is a test of every slot. */
  lemma AllFitMeans<F>(m: seq<(string, Value<F>)>, into: Player<F>)
    ensures AllFit(m, into) <==> forall s: PlayerSlot :: Fits(s, Field(m, into, s))
  {
    if AllFit(m, into) {
      forall s: PlayerSlot
        ensures Fits(s, Field(m, into, s))
      {
        match s
        case FlagSlot(f) => match f { case Fire => case Dead => }
        case VecSlot(v, a) => VecFitsPart(m, into, v, a);
        case QuatSlot(q, c) => QuatFitsPart(m, into, q, c);
      }
    }
  }

  /** Decoding fails exactly when the first entry under some key of the
      record holds a value of the wrong kind. */
  lemma DecodeFails<F>(m: seq<(string, Value<F>)>, into: Player<F>)
    ensures Decode(m, into) == TypeError <==>
      exists s: PlayerSlot :: Lookup(m, KeyOf(s)).Some? && !Fits(s, Lookup(m, KeyOf(s)).value)
  {
    AllFitMeans(m, into);
    forall s: PlayerSlot {
      FieldFits(m, into, s);
    }
  }

  /** A map that holds none of the record's keys leaves the target as it
      was. */
  lemma AbsentKeysKeepTarget<F>(m: seq<(string, Value<F>)>, into: Player<F>)
    requires forall i, s: PlayerSlot :: 0 <= i < |m| ==> m[i].0 != KeyOf(s)
    ensures Decode(m, into) == Ok(into)
  {
    forall s: PlayerSlot
      ensures Field(m, into, s) == Get(into, s)
    {
      LookupFirst(m, KeyOf(s));
    }
    DecodeOwnFields(m, into, into);
  }
}
