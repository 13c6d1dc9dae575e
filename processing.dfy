/** The bookkeeping of both note builders' `main` (notes_creator/log_to_note.py
    and NotesCreator/log_to_note.py): the newest five feed entries are taken
    oldest first, the walk stops at the first entry that is neither a watch
    nor a review, an entry whose date is already recorded under its id is
    skipped, and every other entry records its date and causes a note update
    (known id) or a new note and a rating (new id).

    The entries are reduced to `Viewing`s (the derived id and date with the
    movie they stand for); note writing and rating are recorded as actions. */
module Processing {
  import opened Text

  /** The processed log: movie id to the dates it was watched on. */
  type Processed = map<string, seq<string>>

  datatype Viewing<M> = Viewing(guid: string, id: string, date: string, rate: bool, movie: M)

  datatype Action<M> =
    | UpdateNote(movie: M)
    | CreateNote(movie: M)
    | Rate(movie: M)

  const WindowSize := 5

  function Reverse<E>(s: seq<E>): (r: seq<E>)
    ensures |r| == |s| && forall i :: 0 <= i < |s| ==> r[i] == s[|s| - 1 - i]
    decreases |s|
  {
    if s == [] then [] else Reverse(s[1..]) + [s[0]]
  }

  /** `entries[4::-1]`: the first five entries (the newest), oldest first. */
  function Window<E>(entries: seq<E>): (w: seq<E>)
    ensures |w| == if |entries| < WindowSize then |entries| else WindowSize
    ensures forall i :: 0 <= i < |w| ==> w[i] == entries[|w| - 1 - i]
  {
    Reverse(entries[..if |entries| < WindowSize then |entries| else WindowSize])
  }

  /** An entry the walk goes on with: its guid mentions a watch or a review. */
  predicate IsViewing(guid: string) {
    Find(guid, "watch") != -1 || Find(guid, "review") != -1
  }

  /** `processed.get(id, [])` */
  function Recorded(p: Processed, id: string): seq<string> {
    if id in p then p[id] else []
  }

  /** One entry that is not a stop. */
  function Step<M>(p: Processed, v: Viewing<M>): (Processed, seq<Action<M>>) {
    if v.date in Recorded(p, v.id) then (p, [])
    else
      (p[v.id := Recorded(p, v.id) + [v.date]],
       if v.id in p then [UpdateNote(v.movie)]
       else [CreateNote(v.movie)] + (if v.rate then [Rate(v.movie)] else []))
  }

  /** The walk over the window. */
  function Process<M>(p: Processed, vs: seq<Viewing<M>>): (Processed, seq<Action<M>>)
    decreases |vs|
  {
    if vs == [] || !IsViewing(vs[0].guid) then (p, [])
    else
      var (p1, a1) := Step(p, vs[0]);
      var (p2, a2) := Process(p1, vs[1..]);
      (p2, a1 + a2)
  }

  /** The walk's outcome with `acts` done before it. */
  function After<M>(acts: seq<Action<M>>, r: (Processed, seq<Action<M>>)): (Processed, seq<Action<M>>) {
    (r.0, acts + r.1)
  }

  lemma ProcessCons<M>(p: Processed, vs: seq<Viewing<M>>)
    requires vs != [] && IsViewing(vs[0].guid)
    ensures Process(p, vs) == After(Step(p, vs[0]).1, Process(Step(p, vs[0]).0, vs[1..]))
  {
  }

  lemma AfterAfter<M>(acts: seq<Action<M>>, more: seq<Action<M>>, r: (Processed, seq<Action<M>>))
    ensures After(acts, After(more, r)) == After(acts + more, r)
  {
    assert acts + (more + r.1) == (acts + more) + r.1;
  }

  /** The loop of `main` over the window: `break` at a stop, `continue` on a
      recorded date, otherwise act and append the date. */
  method ProcessViewings<M>(processed: Processed, viewings: seq<Viewing<M>>)
    returns (result: Processed, actions: seq<Action<M>>)
    ensures (result, actions) == Process(processed, viewings)
  {
    result := processed;
    actions := [];
    ghost var all := Process(processed, viewings);
    assert viewings[0..] == viewings;
    assert [] + all.1 == all.1;
    for i := 0 to |viewings|
      invariant all == After(actions, Process(result, viewings[i..]))
    {
      var v := viewings[i];
      assert viewings[i..][0] == v && viewings[i..][1..] == viewings[i + 1..];
      if !IsViewing(v.guid) {
        assert actions + [] == actions;
        break;
      }
      ProcessCons(result, viewings[i..]);
      if v.date in Recorded(result, v.id) {
        AfterAfter(actions, [], Process(result, viewings[i + 1..]));
        assert actions + [] == actions;
        continue;
      }
      var acts: seq<Action<M>>;
      if v.id in result {
        acts := [UpdateNote(v.movie)];
      } else {
        // the rating call only rates a movie with a rating and a year
        acts := [CreateNote(v.movie)] + (if v.rate then [Rate(v.movie)] else []);
      }
      var next := result[v.id := Recorded(result, v.id) + [v.date]];
      assert Step(result, v) == (next, acts);
      AfterAfter(actions, acts, Process(next, viewings[i + 1..]));
      result := next;
      actions := actions + acts;
    }
    assert viewings[|viewings|..] == [];
    assert actions + [] == actions;
  }

  /** Ids that no entry of the walk carries keep their dates, and no id
      appears that was not there. */
  lemma {:induction false} OtherIdsUntouched<M>(p: Processed, vs: seq<Viewing<M>>, k: string)
    requires forall i :: 0 <= i < |vs| ==> vs[i].id != k
    ensures (k in Process(p, vs).0 <==> k in p)
    ensures k in p ==> Process(p, vs).0[k] == p[k]
    decreases |vs|
  {
    if vs != [] && IsViewing(vs[0].guid) {
      OtherIdsUntouched(Step(p, vs[0]).0, vs[1..], k);
    }
  }

  /** An entry whose date is already recorded under its id changes nothing. */
  lemma RecordedSkipped<M>(p: Processed, v: Viewing<M>, vs: seq<Viewing<M>>)
    requires IsViewing(v.guid) && v.date in Recorded(p, v.id)
    ensures Process(p, [v] + vs) == Process(p, vs)
  {
    assert ([v] + vs)[1..] == vs;
    assert [] + Process(p, vs).1 == Process(p, vs).1;
  }

  /** Nothing after the first stop is looked at. */
  lemma {:induction false} StopsAtFirstNonViewing<M>(p: Processed, vs: seq<Viewing<M>>, k: nat)
    requires k < |vs| && !IsViewing(vs[k].guid)
    ensures Process(p, vs) == Process(p, vs[..k])
    decreases k
  {
    if k > 0 && IsViewing(vs[0].guid) {
      assert vs[..k][0] == vs[0] && vs[..k][1..] == vs[1..][..k - 1];
      StopsAtFirstNonViewing(Step(p, vs[0]).0, vs[1..], k - 1);
    }
  }

  predicate NoDuplicates(dates: seq<string>) {
    forall i, j :: 0 <= i < j < |dates| ==> dates[i] != dates[j]
  }

  /** Recorded dates only grow: every id keeps its dates as a prefix. */
  lemma {:induction false} DatesOnlyGrow<M>(p: Processed, vs: seq<Viewing<M>>)
    ensures forall k :: k in p ==> k in Process(p, vs).0 && p[k] <= Process(p, vs).0[k]
    decreases |vs|
  {
    if vs != [] && IsViewing(vs[0].guid) {
      var p1 := Step(p, vs[0]).0;
      DatesOnlyGrow(p1, vs[1..]);
      assert forall k :: k in p ==> k in p1 && p[k] <= p1[k];
    }
  }

  /** A date is never recorded twice under the same id. */
  lemma {:induction false} NoDateTwice<M>(p: Processed, vs: seq<Viewing<M>>)
    requires forall k :: k in p ==> NoDuplicates(p[k])
    ensures forall k :: k in Process(p, vs).0 ==> NoDuplicates(Process(p, vs).0[k])
    decreases |vs|
  {
    if vs != [] && IsViewing(vs[0].guid) {
      var p1 := Step(p, vs[0]).0;
      forall k | k in p1 ensures NoDuplicates(p1[k]) {
        if k == vs[0].id && vs[0].date !in Recorded(p, k) {
          var ds := Recorded(p, k);
          assert p1[k] == ds + [vs[0].date];
          forall i, j | 0 <= i < j < |p1[k]| ensures p1[k][i] != p1[k][j] {
            if j == |ds| {
              assert p1[k][i] == ds[i];
            } else {
              assert p1[k][i] == ds[i] && p1[k][j] == ds[j];
            }
          }
        }
      }
      NoDateTwice(p1, vs[1..]);
    }
  }

  /** Every entry before the first stop ends up recorded under its id. */
  lemma {:induction false} ViewingsRecorded<M>(p: Processed, vs: seq<Viewing<M>>, i: nat)
    requires i < |vs| && forall j :: 0 <= j <= i ==> IsViewing(vs[j].guid)
    ensures vs[i].date in Recorded(Process(p, vs).0, vs[i].id)
    decreases i
  {
    var p1 := Step(p, vs[0]).0;
    if i == 0 {
      assert vs[0].date in Recorded(p1, vs[0].id);
      DatesOnlyGrow(p1, vs[1..]);
    } else {
      ViewingsRecorded(p1, vs[1..], i - 1);
    }
  }
}
