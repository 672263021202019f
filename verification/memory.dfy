/** What one application's polls remember of a pair that answered, from one poll to the next. */
module PairMemory {
  import opened Options
  import opened EndpointScan

  const NO_PAIR := Pair("", "")

  /** What a poll does to the memory: it stores nothing, stores a status without a record, or records what it finds. */
  datatype Turn = Keeps | Forgets | Records

  /** A pair is searched for in full when none is remembered, and kept or dropped by whether it works when one is. */
  function Recorded(m: Pair, found: Option<Pair>, works: Pair -> bool): Pair {
    if m == NO_PAIR then found.GetOr(NO_PAIR) else if works(m) then m else NO_PAIR
  }

  function Turned(m: Pair, t: Turn, found: Option<Pair>, works: Pair -> bool): Pair {
    match t
    case Keeps => m
    case Forgets => NO_PAIR
    case Records => Recorded(m, found, works)
  }

  function After(m: Pair, turns: seq<Turn>, found: Option<Pair>, works: Pair -> bool): Pair {
    if turns == [] then m
    else Turned(After(m, turns[..|turns| - 1], found, works), turns[|turns| - 1], found, works)
  }

  /** Some poll dropped the pair: it forgot everything, or found that the pair does not work. */
  predicate Dropped(m: Pair, turns: seq<Turn>, works: Pair -> bool) {
    exists i :: 0 <= i < |turns| && (turns[i] == Forgets || (turns[i] == Records && !works(m)))
  }

  lemma DroppedStep(m: Pair, turns: seq<Turn>, works: Pair -> bool)
    requires turns != []
    ensures var last := turns[|turns| - 1];
            Dropped(m, turns, works)
            <==> Dropped(m, turns[..|turns| - 1], works) || last == Forgets || (last == Records && !works(m))
  {
    var front := turns[..|turns| - 1];
    if Dropped(m, front, works) {
      var i :| 0 <= i < |front| && (front[i] == Forgets || (front[i] == Records && !works(m)));
      assert turns[i] == front[i];
    }
  }

  /** What is found is a pair that works. */
  predicate Sound(found: Option<Pair>, works: Pair -> bool) {
    found.Some? ==> found.value != NO_PAIR && works(found.value)
  }

  lemma {:induction false} AfterIs(m: Pair, turns: seq<Turn>, found: Option<Pair>, works: Pair -> bool)
    requires Sound(found, works)
    ensures var now := After(m, turns, found, works);
            if m == NO_PAIR || Dropped(m, turns, works) then now == NO_PAIR || found == Some(now) else now == m
  {
    if turns != [] {
      AfterIs(m, turns[..|turns| - 1], found, works);
      DroppedStep(m, turns, works);
    }
  }

  /** After any polls, the next one records what a full search finds once the old pair was dropped, and until then the
      old pair, if it works. */
  lemma {:induction false} RecordedAfter(m: Pair, turns: seq<Turn>, found: Option<Pair>, works: Pair -> bool)
    requires Sound(found, works)
    ensures Recorded(After(m, turns, found, works), found, works)
         == if m == NO_PAIR || Dropped(m, turns, works) then found.GetOr(NO_PAIR)
            else if works(m) then m else NO_PAIR
  {
    AfterIs(m, turns, found, works);
  }
}
