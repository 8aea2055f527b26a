/**
 * The CSS shooting stars of the sections without a 3D canvas: a list of
 * records that a 3-second interval appends to and that each record's own
 * timeout later filters out by id. The timers are not modelled; their
 * firings are the two events Spawn and Expire.
 */
module CssShootingStars {
  import opened RandomRanges

  /** One falling star: its id, its horizontal position in percent and its animation length in seconds. */
  datatype CssStar = CssStar(id: real, left: real, animationDuration: real)

  /** A timer firing: the interval creating a star, or a star's own timeout removing it. */
  datatype Event = Spawn(star: CssStar) | Expire(id: real)

  /** Some record in the list carries this id. */
  predicate HasId(stars: seq<CssStar>, id: real) {
    exists s :: s in stars && s.id == id
  }

  /** The record createShootingStar builds from an id and two draws: `left = r * 100`, `animationDuration = r * 3 + 2`. */
  function NewStar(id: real, leftDraw: real, durationDraw: real): (s: CssStar)
    ensures s.id == id
    ensures IsDraw(leftDraw) <==> 0.0 <= s.left < 100.0
    ensures IsDraw(durationDraw) <==> 2.0 <= s.animationDuration < 5.0
  {
    OffsetRange(leftDraw, 100.0, 0.0);
    OffsetRange(durationDraw, 3.0, 2.0);
    CssStar(id, Offset(leftDraw, 100.0, 0.0), Offset(durationDraw, 3.0, 2.0))
  }

  /** The delay of a star's removal timeout, in milliseconds: the animation's length. */
  function RemovalDelayMs(s: CssStar): (ms: real)
    ensures 2.0 <= s.animationDuration < 5.0 <==> 2000.0 <= ms < 5000.0
  {
    s.animationDuration * 1000.0
  }

  /** `[...prev, newStar]`: one record more, at the end, the others untouched and in order. */
  function AddStar(stars: seq<CssStar>, s: CssStar): (r: seq<CssStar>)
    ensures |r| == |stars| + 1 && r[..|stars|] == stars && r[|stars|] == s
  {
    stars + [s]
  }

  /** `prev.filter(star => star.id !== id)`: exactly the records with another id remain. */
  function RemoveStar(stars: seq<CssStar>, id: real): (r: seq<CssStar>)
    ensures |r| <= |stars|
    ensures forall s :: s in r <==> s in stars && s.id != id
  {
    if stars == [] then []
    else (if stars[0].id != id then [stars[0]] else []) + RemoveStar(stars[1..], id)
  }

  /** Removal keeps the survivors in their order: it works segment by segment. */
  lemma {:induction false} RemoveSplits(a: seq<CssStar>, b: seq<CssStar>, id: real)
    ensures RemoveStar(a + b, id) == RemoveStar(a, id) + RemoveStar(b, id)
  {
    if a != [] {
      assert (a + b)[1..] == a[1..] + b;
      RemoveSplits(a[1..], b, id);
    } else {
      assert a + b == b;
    }
  }

  /** Removing an id no record carries changes nothing. */
  lemma {:induction false} RemoveAbsent(stars: seq<CssStar>, id: real)
    requires !HasId(stars, id)
    ensures RemoveStar(stars, id) == stars
  {
    if stars != [] {
      assert stars[0] in stars;
      assert !HasId(stars[1..], id) by {
        forall s | s in stars[1..] ensures s.id != id {
          assert s in stars;
        }
      }
      RemoveAbsent(stars[1..], id);
      assert [stars[0]] + stars[1..] == stars;
    }
  }

  /** Removal is idempotent: a second timeout for the same id finds nothing to remove. */
  lemma RemoveIdempotent(stars: seq<CssStar>, id: real)
    ensures RemoveStar(RemoveStar(stars, id), id) == RemoveStar(stars, id)
  {
    RemoveAbsent(RemoveStar(stars, id), id);
  }

  /** Creating a star with a fresh id and then removing that id restores the list. */
  lemma AddThenRemove(stars: seq<CssStar>, s: CssStar)
    requires !HasId(stars, s.id)
    ensures RemoveStar(AddStar(stars, s), s.id) == stars
  {
    RemoveSplits(stars, [s], s.id);
    RemoveAbsent(stars, s.id);
    assert RemoveStar([s], s.id) == [] by {
      assert [s][1..] == [];
    }
  }

  /** One timer firing. */
  function Apply(stars: seq<CssStar>, e: Event): seq<CssStar> {
    match e
    case Spawn(s) => AddStar(stars, s)
    case Expire(id) => RemoveStar(stars, id)
  }

  /** The list after a series of timer firings, in order. */
  function Replay(stars: seq<CssStar>, events: seq<Event>): seq<CssStar>
    decreases |events|
  {
    if events == [] then stars else Replay(Apply(stars, events[0]), events[1..])
  }

  /** A star stays listed through every firing until one that expires its id. */
  lemma {:induction false} PresentUntilExpired(stars: seq<CssStar>, events: seq<Event>, s: CssStar)
    requires s in stars
    requires forall i :: 0 <= i < |events| ==> events[i] != Expire(s.id)
    ensures s in Replay(stars, events)
    decreases |events|
  {
    if events != [] {
      var next := Apply(stars, events[0]);
      assert s in next by {
        match events[0]
        case Spawn(t) => assert AddStar(stars, t)[..|stars|] == stars;
        case Expire(id) => assert id != s.id;
      }
      PresentUntilExpired(next, events[1..], s);
    }
  }

  /** Once its timeout has fired, no record with that id comes back unless a new star reuses the id. */
  lemma {:induction false} GoneAfterExpire(stars: seq<CssStar>, events: seq<Event>, id: real)
    requires forall i :: 0 <= i < |events| ==> !(events[i].Spawn? && events[i].star.id == id)
    ensures !HasId(Replay(stars, [Expire(id)] + events), id)
  {
    assert ([Expire(id)] + events)[1..] == events;
    StaysAbsent(RemoveStar(stars, id), events, id);
  }

  /** A list without the id keeps it out through any firings that do not spawn it. */
  lemma {:induction false} StaysAbsent(stars: seq<CssStar>, events: seq<Event>, id: real)
    requires !HasId(stars, id)
    requires forall i :: 0 <= i < |events| ==> !(events[i].Spawn? && events[i].star.id == id)
    ensures !HasId(Replay(stars, events), id)
    decreases |events|
  {
    if events != [] {
      var next := Apply(stars, events[0]);
      assert !HasId(next, id) by {
        match events[0]
        case Spawn(t) =>
          forall u | u in AddStar(stars, t) ensures u.id != id {
            assert u in stars || u == t;
          }
        case Expire(_) =>
      }
      StaysAbsent(next, events[1..], id);
    }
  }
}
