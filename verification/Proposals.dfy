/** Proposals and the order they are admitted in. */
module Proposals {
  import opened Prelude
  import opened Pred
  import opened World
  import opened Sorting

  datatype IntentTarget = NoTarget | AtSigil(s: Sigil) | AtName(n: Name)

  datatype ResidencyOp = Load | Evict

  /** A place snapshot: its identity and the loci of its rows. */
  datatype Snap = Snap(place: Sigil, canonHash: nat, rows: seq<Sigil>)

  /** One mover's admitted-motion grain; `payload` stands for the columns that are not modelled. */
  datatype Move = Move(mover: Sigil, pose: Pose, island: nat, sleep: nat, hull: nat, witnessMover: Sigil,
                       overlaps: bool, payload: nat)

  datatype Body = Body(mover: Sigil, pose: Pose, sleep: nat, payload: nat)

  datatype Proposal =
    | PlayerIntent(player: nat, at: Tick, verb: Verb, target: IntentTarget, claimed: seq<Channel>, analog: nat)
    | MindIntent(locus: Sigil, verb: Verb, target: IntentTarget)
    | InferIntent(speaker: Option<Sigil>, verb: Verb, target: IntentTarget, claimedFacts: seq<nat>)
    | PhysIsland(epoch: nat, tick: Tick, id: nat, members: seq<Sigil>, bodies: seq<Body>, constraints: seq<Sigil>,
                 payload: nat)
    | SpaceDelta(move: Move)
    | MotionDelta(move: Move)
    | Residency(place: Sigil, op: ResidencyOp, prefix: nat, canonHash: nat, snap: Snap)

  datatype Kind = PlayerKind | ResidencyKind | PhysKind | SpaceKind | MotionKind | MindKind | InferKind

  function OrderKey(p: Proposal): nat {
    match p
    case PlayerIntent(_, _, _, _, _, _) => 0
    case Residency(_, _, _, _, _) => 1
    case PhysIsland(_, _, _, _, _, _, _) => 2
    case SpaceDelta(_) => 3
    case MotionDelta(_) => 4
    case MindIntent(_, _, _) => 5
    case InferIntent(_, _, _, _) => 6
  }

  function MoverRaw(p: Proposal): nat {
    match p
    case PlayerIntent(player, _, _, _, _, _) => player
    case MindIntent(locus, _, _) => locus
    case InferIntent(speaker, _, _, _) => if speaker.Some? then speaker.value else 0
    case PhysIsland(_, _, _, members, _, _, _) => if members == [] then 0 else members[0]
    case SpaceDelta(m) => m.mover
    case MotionDelta(m) => m.mover
    case Residency(place, _, _, _, _) => place
  }

  function IslandOf(p: Proposal): nat {
    match p
    case PhysIsland(_, _, id, _, _, _, _) => id
    case SpaceDelta(m) => m.island
    case MotionDelta(m) => m.island
    case _ => 0
  }

  function KindOf(p: Proposal): Kind {
    match p
    case PlayerIntent(_, _, _, _, _, _) => PlayerKind
    case Residency(_, _, _, _, _) => ResidencyKind
    case PhysIsland(_, _, _, _, _, _, _) => PhysKind
    case SpaceDelta(_) => SpaceKind
    case MotionDelta(_) => MotionKind
    case MindIntent(_, _, _) => MindKind
    case InferIntent(_, _, _, _) => InferKind
  }

  /** A queued proposal and the registration index of its proposer. */
  datatype Item = Item(p: Proposal, reg: nat)

  datatype Key = Key(order: nat, mover: nat, island: nat, reg: nat)

  /** `admit_key`. */
  function KeyOf(it: Item): Key { Key(OrderKey(it.p), MoverRaw(it.p), IslandOf(it.p), it.reg) }

  /** Lexicographic order. */
  predicate KeyLe(a: Key, b: Key) {
    || a.order < b.order
    || (a.order == b.order
        && (a.mover < b.mover
            || (a.mover == b.mover && (a.island < b.island || (a.island == b.island && a.reg <= b.reg)))))
  }

  predicate Before(a: Item, b: Item) { KeyLe(KeyOf(a), KeyOf(b)) }

  lemma BeforeTotal()
    ensures TotalPreorder(Before)
  {
    hide KeyOf;
  }

  lemma KeyAntisymmetric(a: Key, b: Key)
    requires KeyLe(a, b) && KeyLe(b, a)
    ensures a == b
  {
  }

  /** Equal keys are of one kind. */
  lemma KeyFixesKind(a: Item, b: Item)
    requires KeyOf(a) == KeyOf(b)
    ensures KindOf(a.p) == KindOf(b.p)
  {
  }

  // ---------------------------------------------------------------------------------------------
  // Equivalence classes of a sorted batch.

  /** Length of the leading run with key `k`. */
  function RunLength(s: seq<Item>, k: Key): (n: nat)
    ensures n <= |s|
    ensures forall i :: 0 <= i < n ==> KeyOf(s[i]) == k
    ensures n < |s| ==> KeyOf(s[n]) != k
  {
    if s == [] || KeyOf(s[0]) != k then 0 else 1 + RunLength(s[1..], k)
  }

  function ClassLength(s: seq<Item>): (n: nat)
    requires s != []
    ensures 0 < n <= |s|
  {
    RunLength(s, KeyOf(s[0]))
  }

  predicate Uniform(cls: seq<Item>) { forall i :: 0 <= i < |cls| ==> cls[i].p == cls[0].p }

  /** After the leading class every key is larger. */
  lemma ClassComplete(s: seq<Item>)
    requires s != [] && Sorted(s, Before)
    ensures var n := ClassLength(s);
      && (forall i :: 0 <= i < n ==> KeyOf(s[i]) == KeyOf(s[0]))
      && (forall i :: n <= i < |s| ==> KeyOf(s[i]) != KeyOf(s[0]) && KeyLe(KeyOf(s[0]), KeyOf(s[i])))
      && Sorted(s[n..], Before)
  {
    hide KeyOf;
    var n := ClassLength(s);
    forall i | n <= i < |s|
      ensures KeyOf(s[i]) != KeyOf(s[0]) && Before(s[0], s[i])
    {
      assert Before(s[n], s[i]) || n == i;
      assert n > 0 && Before(s[0], s[n]);
      if KeyOf(s[i]) == KeyOf(s[0]) {
        KeyAntisymmetric(KeyOf(s[0]), KeyOf(s[n]));
      }
    }
  }
}
