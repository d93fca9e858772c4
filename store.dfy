/** Facts about a repository whose ids are generated: every id handed out
    so far is below the next one the generator will produce. */
module Store {

  ghost predicate IdsBelow<T>(m: map<int, T>, next: int)
  {
    forall k :: k in m ==> k < next
  }
}
