/** The achievement ledger: each kind is held at most once, with the time
    it was first awarded. */
module Achievements {
  import opened Types

  /** `award_achievement`: records `kind` at `now` only when it is not yet held.
      The caller learns whether the award was new from `kind !in held`. */
  function Award(held: map<Achievement, Timestamp>, kind: Achievement, now: Timestamp)
    : (r: map<Achievement, Timestamp>)
    ensures r.Keys == held.Keys + {kind}
    ensures forall k :: k in held ==> r[k] == held[k]
    ensures kind !in held ==> r[kind] == now
  {
    if kind in held then held else held[kind := now]
  }

  /** Awarding an already held kind is a no-op, whatever the later time. */
  lemma AwardIsIdempotent(held: map<Achievement, Timestamp>, kind: Achievement, first: Timestamp, later: Timestamp)
    ensures Award(Award(held, kind, first), kind, later) == Award(held, kind, first)
    ensures kind !in held ==> Award(Award(held, kind, first), kind, later)[kind] == first
  {
  }
}
