/** The keyed ("map") serialisation shared by the server's and the client's
    `Player` record.  A `MSGPACK_DEFINE_MAP(a, b.x, ...)` list writes one
    map entry per argument, keyed by the stringised argument, and reads a
    record back by looking each of those keys up in an incoming map.

    Floating-point numbers are an opaque type parameter `F`: the schema only
    moves them around, it never computes with them. */
module Wire {

  datatype Option<+T> = None | Some(value: T)

  /** A three-component vector (`glm::vec3`). */
  datatype Vec3<F> = Vec3(x: F, y: F, z: F)

  /** A quaternion (`glm::quat`), stored as the vector part x, y, z and the
      scalar part w. */
  datatype Quat<F> = Quat(x: F, y: F, z: F, w: F)

  /** The kinds of map value the record uses.  `Float` stands for every
      value the serialiser converts to a float (a float32, a float64, or a
      positive or negative integer); `Other` for every kind it refuses for
      both a flag and a component (nil, string, array, map, ...). */
  datatype Value<F> = Bool(b: bool) | Float(f: F) | Other

  /** One decoded map, as its entries in wire order. */
  type Entries<F> = seq<(string, Value<F>)>

  /** A conversion either succeeds or fails with the serialiser's type
      error (a value of the wrong kind under a known key). */
  datatype Result<+T> = Ok(value: T) | TypeError {
    predicate IsFailure() {
      TypeError?
    }

    function PropagateFailure<U>(): Result<U>
      requires TypeError?
    {
      TypeError
    }

    function Extract(): T
      requires Ok?
    {
      value
    }
  }

  function AsBool<F>(v: Value<F>): (r: Result<bool>)
    ensures r.Ok? <==> v.Bool?
    ensures r.Ok? ==> v == Bool(r.value)
  {
    if v.Bool? then Ok(v.b) else TypeError
  }

  function AsFloat<F>(v: Value<F>): (r: Result<F>)
    ensures r.Ok? <==> v.Float?
    ensures r.Ok? ==> v == Float(r.value)
  {
    if v.Float? then Ok(v.f) else TypeError
  }

  /** The first entry under `key`, if any.  The decoder collects the
      incoming entries into a dictionary with an insertion that keeps an
      existing key, so of several entries under one key the first wins. */
  function Lookup<F>(m: Entries<F>, key: string): Option<Value<F>>
  {
    if m == [] then None
    else if m[0].0 == key then Some(m[0].1)
    else Lookup(m[1..], key)
  }

  /** `Lookup` finds a value exactly when some entry has the key, and then it
      is the value of the first such entry. */
  lemma {:induction false} LookupFirst<F>(m: Entries<F>, key: string)
    ensures Lookup(m, key).None? <==> forall i :: 0 <= i < |m| ==> m[i].0 != key
    ensures Lookup(m, key).Some? ==>
      exists i :: 0 <= i < |m| && m[i] == (key, Lookup(m, key).value) &&
        forall j :: 0 <= j < i ==> m[j].0 != key
  {
    if m != [] && m[0].0 != key {
      LookupFirst(m[1..], key);
      assert forall i :: 1 <= i < |m| ==> m[i] == m[1..][i - 1];
      if Lookup(m, key).Some? {
        var i :| 0 <= i < |m[1..]| && m[1..][i] == (key, Lookup(m, key).value) &&
          forall j :: 0 <= j < i ==> m[1..][j].0 != key;
        assert m[i + 1] == (key, Lookup(m, key).value);
      }
    } else if m != [] {
      assert m[0] == (key, Lookup(m, key).value);
    }
  }

  /** The value a field receives: the entry under its key, or else the value
      the field already held. */
  function LookupOr<F>(m: Entries<F>, key: string, current: Value<F>): Value<F>
  {
    match Lookup(m, key)
    case Some(v) => v
    case None => current
  }

  /** The keys of a list of entries, in order. */
  function Keys<V>(m: seq<(string, V)>): (ks: seq<string>)
    ensures |ks| == |m|
    ensures forall i :: 0 <= i < |m| ==> ks[i] == m[i].0
  {
    seq(|m|, i requires 0 <= i < |m| => m[i].0)
  }

  predicate Distinct<T(==)>(s: seq<T>)
  {
    forall i, j :: 0 <= i < j < |s| ==> s[i] != s[j]
  }

  /** In a map whose keys are pairwise distinct, looking a key up finds the
      one entry under it. */
  lemma {:induction false} LookupDistinct<F>(m: Entries<F>, i: nat)
    requires Distinct(Keys(m))
    requires i < |m|
    ensures Lookup(m, m[i].0) == Some(m[i].1)
  {
    if i > 0 {
      assert Keys(m)[0] != Keys(m)[i];
      var rest := m[1..];
      assert Keys(rest) == Keys(m)[1..];
      assert rest[i - 1] == m[i];
      LookupDistinct(rest, i - 1);
    }
  }

  /** The key of a component, as the serialiser stringises a member access
      `base.suffix`. */
  function Dotted(base: string, suffix: string): (k: string)
    ensures |k| == |base| + 1 + |suffix|
    ensures k[|base|] == '.'
  {
    base + "." + suffix
  }

  /** A dotted key determines its base, when bases have no dot, and then its
      suffix. */
  lemma DottedInjective(a: string, b: string, c: string, d: string)
    requires '.' !in a && '.' !in c
    requires Dotted(a, b) == Dotted(c, d)
    ensures a == c && b == d
  {
    var k := Dotted(a, b);
    assert a == k[..|a|] == c;
    assert b == k[|a| + 1..] == d;
  }

  /** The name a vector component is written with. */
  function AxisName(a: Axis): string
  {
    match a
    case X => "x"
    case Y => "y"
    case Z => "z"
  }

  /** The name a quaternion component is written with. */
  function PartName(c: QuatPart): string
  {
    match c
    case Imag(a) => AxisName(a)
    case Real => "w"
  }

  /** `small` occurs in `big` in the same relative order: `pick[k]` is the
      position in `big` of the `k`-th element of `small`. */
  predicate Subsequence<T(==)>(small: seq<T>, big: seq<T>, pick: seq<nat>)
  {
    && |pick| == |small|
    && (forall k :: 0 <= k < |pick| ==> pick[k] < |big| && big[pick[k]] == small[k])
    && (forall k, l :: 0 <= k < l < |pick| ==> pick[k] < pick[l])
  }

  /** The positions `lo`, ..., `hi - 1`. */
  function Span(lo: nat, hi: nat): (r: seq<nat>)
    requires lo <= hi
    ensures |r| == hi - lo
    ensures forall k :: 0 <= k < |r| ==> r[k] == lo + k
  {
    seq(hi - lo, k requires 0 <= k < hi - lo => lo + k)
  }

  /** A sequence made of two slices of `big` is a subsequence of `big`, at
      the positions of the two slices. */
  lemma SlicesSubsequence<T>(small: seq<T>, big: seq<T>, a: nat, b: nat, c: nat)
    requires a <= b <= c <= |big|
    requires small == big[..a] + big[b..c]
    ensures Subsequence(small, big, Span(0, a) + Span(b, c))
  {
    var pick := Span(0, a) + Span(b, c);
    forall k | 0 <= k < |pick|
      ensures pick[k] < |big| && big[pick[k]] == small[k]
    {
      if k >= a {
        assert pick[k] == b + (k - a);
      }
    }
  }

  /** The components of a vector, in wire order. */
  datatype Axis = X | Y | Z

  /** The components of a quaternion, in wire order: the vector part x, y, z,
      then the scalar part w. */
  datatype QuatPart = Imag(axis: Axis) | Real

  function VecPart<F>(v: Vec3<F>, a: Axis): F
  {
    match a
    case X => v.x
    case Y => v.y
    case Z => v.z
  }

  function QuatComponent<F>(q: Quat<F>, c: QuatPart): F
  {
    match c
    case Imag(a) => (match a case X => q.x case Y => q.y case Z => q.z)
    case Real => q.w
  }

  /** A member of a record, by its kind: a flag, a vector or a quaternion.
      `FM`, `VM`, `QM` enumerate the record's members of each kind. */
  datatype Member<FM, VM, QM> = FlagMember(flag: FM) | VecMember(vec: VM) | QuatMember(quat: QM)

  /** One scalar slot of the serialised record: a flag, one component of a
      vector or one component of a quaternion. */
  datatype Slot<FM, VM, QM> =
    | FlagSlot(flag: FM)
    | VecSlot(vec: VM, axis: Axis)
    | QuatSlot(quat: QM, part: QuatPart)

  /** The member a slot belongs to. */
  function Owner<FM, VM, QM>(s: Slot<FM, VM, QM>): Member<FM, VM, QM>
  {
    match s
    case FlagSlot(f) => FlagMember(f)
    case VecSlot(v, _) => VecMember(v)
    case QuatSlot(q, _) => QuatMember(q)
  }

  /** The slots a member is written as: a flag as itself, a vector as x, y, z
      and a quaternion as x, y, z, w. */
  function Group<FM, VM, QM>(m: Member<FM, VM, QM>): (g: seq<Slot<FM, VM, QM>>)
    ensures m.FlagMember? ==> |g| == 1
    ensures m.VecMember? ==> |g| == 3
    ensures m.QuatMember? ==> |g| == 4
    ensures forall i :: 0 <= i < |g| ==> Owner(g[i]) == m
  {
    match m
    case FlagMember(f) => [FlagSlot(f)]
    case VecMember(v) => [VecSlot(v, X), VecSlot(v, Y), VecSlot(v, Z)]
    case QuatMember(q) => [QuatSlot(q, Imag(X)), QuatSlot(q, Imag(Y)), QuatSlot(q, Imag(Z)), QuatSlot(q, Real)]
  }

  /** The slots of a list of members, member after member. */
  function Expand<FM, VM, QM>(ms: seq<Member<FM, VM, QM>>): seq<Slot<FM, VM, QM>>
  {
    if ms == [] then [] else Group(ms[0]) + Expand(ms[1..])
  }

  lemma GroupHasSlot<FM, VM, QM>(s: Slot<FM, VM, QM>)
    ensures s in Group(Owner(s))
  {
    match s
    case FlagSlot(_) =>
    case VecSlot(_, a) =>
      match a { case X => case Y => case Z => }
    case QuatSlot(_, c) =>
      match c { case Real => case Imag(a) => match a { case X => case Y => case Z => } }
  }

  /** Every slot of an expansion belongs to one of the expanded members. */
  lemma {:induction false} ExpandOwners<FM, VM, QM>(ms: seq<Member<FM, VM, QM>>)
    ensures forall k :: 0 <= k < |Expand(ms)| ==> Owner(Expand(ms)[k]) in ms
  {
    if ms != [] {
      var g, rest := Group(ms[0]), Expand(ms[1..]);
      ExpandOwners(ms[1..]);
      forall k | 0 <= k < |Expand(ms)|
        ensures Owner(Expand(ms)[k]) in ms
      {
        if k >= |g| {
          assert Expand(ms)[k] == rest[k - |g|];
          assert Owner(rest[k - |g|]) in ms[1..];
        }
      }
    }
  }

  /** Every slot of every listed member is in the expansion. */
  lemma {:induction false} ExpandCovers<FM, VM, QM>(ms: seq<Member<FM, VM, QM>>, s: Slot<FM, VM, QM>)
    requires Owner(s) in ms
    ensures s in Expand(ms)
  {
    if ms[0] == Owner(s) {
      GroupHasSlot(s);
    } else {
      ExpandCovers(ms[1..], s);
    }
  }

  /** Listing each member once lists each slot once. */
  lemma {:induction false} ExpandDistinct<FM, VM, QM>(ms: seq<Member<FM, VM, QM>>)
    requires Distinct(ms)
    ensures Distinct(Expand(ms))
  {
    if ms != [] {
      var g, rest := Group(ms[0]), Expand(ms[1..]);
      assert Distinct(ms[1..]);
      ExpandDistinct(ms[1..]);
      ExpandOwners(ms[1..]);
      assert ms[0] !in ms[1..];
      var e := Expand(ms);
      forall i, j | 0 <= i < j < |e|
        ensures e[i] != e[j]
      {
        if j < |g| {
          assert e[i] == g[i] && e[j] == g[j];
        } else if i >= |g| {
          assert e[i] == rest[i - |g|] && e[j] == rest[j - |g|];
        } else {
          assert e[i] == g[i] && e[j] == rest[j - |g|];
          assert Owner(e[i]) == ms[0];
          assert Owner(e[j]) in ms[1..];
        }
      }
    }
  }

  /** Expanding a concatenation expands each part. */
  lemma {:induction false} ExpandAppend<FM, VM, QM>(a: seq<Member<FM, VM, QM>>, b: seq<Member<FM, VM, QM>>)
    ensures Expand(a + b) == Expand(a) + Expand(b)
  {
    if a != [] {
      assert (a + b)[1..] == a[1..] + b;
      ExpandAppend(a[1..], b);
    } else {
      assert a + b == b;
    }
  }

  /** Expanding two members lists the slots of the first, then those of the
      second. */
  lemma ExpandTwo<FM, VM, QM>(m1: Member<FM, VM, QM>, m2: Member<FM, VM, QM>)
    ensures Expand([m1, m2]) == Group(m1) + Group(m2)
  {
    assert [m1, m2][1..] == [m2];
    assert [m2][1..] == [];
    assert Expand([m2]) == Group(m2) + Expand([]);
  }

  /** Whether a value has the kind its slot holds. */
  predicate Fits<FM, VM, QM, F>(s: Slot<FM, VM, QM>, v: Value<F>)
  {
    if s.FlagSlot? then v.Bool? else v.Float?
  }
}
