/**
 * `register_hit`: the batch scraper's duplicate filter. It works on two
 * things: the hits kept so far and the set of ids seen. A hit is kept when
 * its id is empty or has not been seen; a kept non-empty id is remembered.
 */
module Dedup {
  import opened Card

  /** The state `register_hit` works on: the kept hits and the ids seen. */
  datatype Kept = Kept(hits: seq<PriceHit>, seen: set<string>)

  /** The non-empty ids among the hits. */
  function NonEmptyIds(hits: seq<PriceHit>): set<string> {
    set i | 0 <= i < |hits| && hits[i].id != "" :: hits[i].id
  }

  /** The seen ids are exactly the non-empty ids of the kept hits. */
  predicate Tracks(k: Kept) {
    k.seen == NonEmptyIds(k.hits)
  }

  /** No two hits share a non-empty id. */
  predicate IdsDistinct(hits: seq<PriceHit>) {
    forall i, j :: 0 <= i < j < |hits| && hits[i].id != "" ==> hits[i].id != hits[j].id
  }

  /** The acceptance test of `register_hit` against the set of seen ids. */
  predicate IsNew(seen: set<string>, hit: PriceHit) {
    hit.id == "" || hit.id !in seen
  }

  lemma NonEmptyIdsSnoc(hits: seq<PriceHit>, hit: PriceHit)
    ensures NonEmptyIds(hits + [hit]) == NonEmptyIds(hits) + NonEmptyIds([hit])
  {
    var s := hits + [hit];
    forall id | id in NonEmptyIds(s) ensures id in NonEmptyIds(hits) + NonEmptyIds([hit]) {
      var i :| 0 <= i < |s| && s[i].id != "" && s[i].id == id;
      if i < |hits| { assert hits[i] == s[i]; } else { assert [hit][0] == s[i]; }
    }
    forall id | id in NonEmptyIds(hits) + NonEmptyIds([hit]) ensures id in NonEmptyIds(s) {
      if id in NonEmptyIds(hits) {
        var i :| 0 <= i < |hits| && hits[i].id != "" && hits[i].id == id;
        assert s[i] == hits[i];
      } else {
        assert s[|hits|] == hit;
      }
    }
  }

  /** The state after offering one hit to `register_hit`. */
  function Registered(k: Kept, hit: PriceHit): (r: Kept)
    ensures IsNew(k.seen, hit) <==> |r.hits| == |k.hits| + 1
    ensures k.hits <= r.hits && |r.hits| <= |k.hits| + 1
    ensures |r.hits| == |k.hits| ==> r == k
  {
    if IsNew(k.seen, hit) then Kept(k.hits + [hit], if hit.id == "" then k.seen else k.seen + {hit.id}) else k
  }

  /**
   * Offering a hit keeps the seen ids those of the kept hits, and keeps the
   * kept ids distinct; the hit is appended exactly when it is new.
   */
  lemma RegisteredTracks(k: Kept, hit: PriceHit)
    requires Tracks(k)
    ensures Tracks(Registered(k, hit))
    ensures NonEmptyIds(Registered(k, hit).hits) == NonEmptyIds(k.hits) + NonEmptyIds([hit])
    ensures IdsDistinct(k.hits) ==> IdsDistinct(Registered(k, hit).hits)
    ensures Registered(k, hit).hits == if IsNew(k.seen, hit) then k.hits + [hit] else k.hits
  {
    assert NonEmptyIds([hit]) == if hit.id == "" then {} else {hit.id} by { assert [hit][0] == hit; }
    if IsNew(k.seen, hit) {
      NonEmptyIdsSnoc(k.hits, hit);
      if IdsDistinct(k.hits) && hit.id != "" {
        forall i | 0 <= i < |k.hits| && k.hits[i].id != "" ensures k.hits[i].id != hit.id {
          assert k.hits[i].id in NonEmptyIds(k.hits);
        }
      }
    }
  }

  /** The state after offering `cards` to `register_hit` one after the other. */
  function AppendHits(k: Kept, cards: seq<PriceHit>): (r: Kept)
    ensures k.hits <= r.hits && |r.hits| <= |k.hits| + |cards|
    ensures |r.hits| == |k.hits| ==> r == k
  {
    if cards == [] then k
    else Registered(AppendHits(k, cards[..|cards| - 1]), cards[|cards| - 1])
  }

  /**
   * Offering `cards` keeps the seen ids those of the kept hits, which are
   * then the earlier ones and those of the cards, and distinct ids stay
   * distinct.
   */
  lemma {:induction false} AppendHitsTracks(k: Kept, cards: seq<PriceHit>)
    requires Tracks(k)
    ensures Tracks(AppendHits(k, cards))
    ensures NonEmptyIds(AppendHits(k, cards).hits) == NonEmptyIds(k.hits) + NonEmptyIds(cards)
    ensures IdsDistinct(k.hits) ==> IdsDistinct(AppendHits(k, cards).hits)
  {
    if cards != [] {
      var front := cards[..|cards| - 1];
      var last := cards[|cards| - 1];
      assert cards == front + [last];
      AppendHitsTracks(k, front);
      NonEmptyIdsSnoc(front, last);
      RegisteredTracks(AppendHits(k, front), last);
    }
  }

  /** Offering one more card registers it after the others. */
  lemma AppendHitsSnoc(k: Kept, cards: seq<PriceHit>, hit: PriceHit)
    ensures AppendHits(k, cards + [hit]) == Registered(AppendHits(k, cards), hit)
  {
    assert (cards + [hit])[..|cards|] == cards;
  }

  /** Whatever is appended comes from the offered cards. */
  lemma {:induction false} AppendedFromCards(k: Kept, cards: seq<PriceHit>)
    ensures forall x :: x in AppendHits(k, cards).hits[|k.hits|..] ==> x in cards
  {
    if cards != [] {
      var front := cards[..|cards| - 1];
      var last := cards[|cards| - 1];
      AppendedFromCards(k, front);
      var p := AppendHits(k, front);
      var r := Registered(p, last);
      assert r.hits[|k.hits|..] == p.hits[|k.hits|..] + r.hits[|p.hits|..];
      assert forall x :: x in front ==> x in cards;
      assert forall x :: x in r.hits[|p.hits|..] ==> x == last;
    }
  }

  /** Cards without an id are all appended. */
  lemma {:induction false} EmptyIdsAppended(k: Kept, cards: seq<PriceHit>)
    ensures forall x :: x in cards && x.id == "" ==> x in AppendHits(k, cards).hits[|k.hits|..]
  {
    if cards != [] {
      var front := cards[..|cards| - 1];
      var last := cards[|cards| - 1];
      EmptyIdsAppended(k, front);
      var p := AppendHits(k, front);
      var r := Registered(p, last);
      assert r.hits[|k.hits|..] == p.hits[|k.hits|..] + r.hits[|p.hits|..];
      forall x | x in cards && x.id == "" ensures x in r.hits[|k.hits|..] {
        if x == last {
          assert r.hits[|p.hits|..] == [last];
        } else {
          assert x in front by { assert cards == front + [last]; }
        }
      }
    }
  }

  /**
   * Offering cards registers nothing new exactly when every card has a
   * non-empty id that has been seen.
   */
  lemma {:induction false} NothingAdded(k: Kept, cards: seq<PriceHit>)
    ensures |AppendHits(k, cards).hits| == |k.hits| <==> forall x :: x in cards ==> x.id != "" && x.id in k.seen
  {
    if cards != [] {
      var front := cards[..|cards| - 1];
      var last := cards[|cards| - 1];
      assert cards == front + [last];
      NothingAdded(k, front);
    }
  }

  /** The first hit offered with a fresh non-empty id is kept, and offering it again is refused. */
  lemma RegisterAcceptsFirstOccurrence(k: Kept, hit: PriceHit)
    requires Tracks(k)
    requires hit.id != "" && forall i :: 0 <= i < |k.hits| ==> k.hits[i].id != hit.id
    ensures Registered(k, hit).hits == k.hits + [hit]
    ensures Registered(Registered(k, hit), hit) == Registered(k, hit)
  {
    assert hit.id !in NonEmptyIds(k.hits);
  }

  /** Hits without an id are never filtered. */
  lemma EmptyIdAlwaysAccepted(k: Kept, hit: PriceHit)
    requires hit.id == ""
    ensures Registered(k, hit) == Kept(k.hits + [hit], k.seen)
  {
  }

  /**
   * Card `i` passes `register_hit` when offered in order after the cards
   * before it: its id is empty, or it was not seen before and no earlier
   * card carries it.
   */
  predicate FirstOfItsId(seen: set<string>, cards: seq<PriceHit>, i: nat)
    requires i < |cards|
  {
    cards[i].id == "" || (cards[i].id !in seen && forall j :: 0 <= j < i ==> cards[j].id != cards[i].id)
  }

  /** The cards that pass, in card order. */
  function FirstOccurrences(seen: set<string>, cards: seq<PriceHit>): seq<PriceHit> {
    if cards == [] then []
    else
      var n := |cards| - 1;
      FirstOccurrences(seen, cards[..n]) + (if FirstOfItsId(seen, cards, n) then [cards[n]] else [])
  }

  /** The non-empty ids of `cards` are those some card carries. */
  lemma NonEmptyIdsMember(cards: seq<PriceHit>, id: string)
    requires id != ""
    ensures id in NonEmptyIds(cards) <==> exists j :: 0 <= j < |cards| && cards[j].id == id
  {
  }

  /**
   * Offering `cards` appends exactly the cards that pass, in card order:
   * those without an id, and the first card carrying each id not seen
   * before; every later card with an id already kept is refused.
   */
  lemma {:induction false} AppendHitsKeepsFirstOccurrences(k: Kept, cards: seq<PriceHit>)
    requires Tracks(k)
    ensures AppendHits(k, cards).hits == k.hits + FirstOccurrences(k.seen, cards)
  {
    if cards == [] {
      assert k.hits + [] == k.hits;
    } else {
      var n := |cards| - 1;
      var front, last := cards[..n], cards[n];
      var p := AppendHits(k, front);
      assert p.hits == k.hits + FirstOccurrences(k.seen, front) by {
        AppendHitsKeepsFirstOccurrences(k, front);
      }
      assert p.seen == k.seen + NonEmptyIds(front) by {
        AppendHitsTracks(k, front);
      }
      assert IsNew(p.seen, last) <==> FirstOfItsId(k.seen, cards, n) by {
        if last.id != "" {
          NonEmptyIdsMember(front, last.id);
          assert forall j :: 0 <= j < n ==> front[j] == cards[j];
        }
      }
      var tail := if FirstOfItsId(k.seen, cards, n) then [last] else [];
      assert AppendHits(k, cards).hits == p.hits + tail by {
        assert AppendHits(k, cards) == Registered(p, last);
      }
      assert k.hits + FirstOccurrences(k.seen, front) + tail == k.hits + (FirstOccurrences(k.seen, front) + tail);
    }
  }

  /**
   * `register_hit` decides on each card in turn: after the cards before it
   * have been offered, card `i` is appended exactly when it passes, and
   * otherwise nothing changes.
   */
  lemma AppendHitsStep(k: Kept, cards: seq<PriceHit>, i: nat)
    requires Tracks(k) && i < |cards|
    ensures AppendHits(k, cards[..i + 1]).hits
            == AppendHits(k, cards[..i]).hits + (if FirstOfItsId(k.seen, cards, i) then [cards[i]] else [])
  {
    var c := cards[..i + 1];
    assert c[..i] == cards[..i];
    assert FirstOfItsId(k.seen, c, i) == FirstOfItsId(k.seen, cards, i) by {
      assert forall j :: 0 <= j <= i ==> c[j] == cards[j];
    }
    AppendHitsKeepsFirstOccurrences(k, c);
    AppendHitsKeepsFirstOccurrences(k, cards[..i]);
  }

  /** Of two cards with the same non-empty id, the later one never passes. */
  lemma LaterDuplicateRefused(k: Kept, cards: seq<PriceHit>, i: nat, j: nat)
    requires Tracks(k) && i < j < |cards| && cards[i].id == cards[j].id && cards[j].id != ""
    ensures AppendHits(k, cards[..j + 1]) == AppendHits(k, cards[..j])
  {
    AppendHitsStep(k, cards, j);
    assert !FirstOfItsId(k.seen, cards, j);
    assert cards[..j + 1][..j] == cards[..j];
  }

  /** The fields `register_hit` mutates: the kept hits and the set of seen ids. */
  class Registry {
    var hits: seq<PriceHit>
    var seen: set<string>

    /** The fields as a state. */
    function State(): Kept
      reads this
    {
      Kept(hits, seen)
    }

    /**
     * What `register_hit` maintains: the seen ids are the non-empty ids of
     * the kept hits, and no two kept hits share one.
     */
    ghost predicate Valid()
      reads this
    {
      Tracks(State()) && IdsDistinct(hits)
    }

    constructor()
      ensures hits == [] && seen == {}
      ensures Valid()
    {
      hits := [];
      seen := {};
    }

    /**
     * `register_hit`: refuse a hit whose non-empty id has been seen;
     * otherwise remember its id and append it.
     */
    method RegisterHit(hit: PriceHit) returns (added: bool)
      requires Valid()
      modifies this
      ensures Valid()
      ensures added <==> IsNew(old(seen), hit)
      ensures State() == Registered(old(State()), hit)
    {
      RegisteredTracks(State(), hit);
      if hit.id != "" {
        if hit.id in seen {
          return false;
        }
        seen := seen + {hit.id};
      }
      hits := hits + [hit];
      added := true;
    }
  }
}
