/** The workout log page: its two pieces of state (the logged workouts and
    the text in the input field), the handler that logs a workout, the
    field's change handler, and what the list part of the page shows. */
module IndexPage {
  import opened JsString

  /** One logged workout; `id` is the clock reading taken when it was added. */
  datatype Workout = Workout(id: int, name: string)

  /** The notification raised by the add handler. */
  datatype Outcome = Error | Success

  /** One row of the rendered list: its key and its text. */
  datatype ListItem = ListItem(key: int, text: string)

  /** The list part of the page: the placeholder text, or the rows. */
  datatype ListView = Placeholder | List(items: seq<ListItem>)

  /** Every id is smaller than the one after it. */
  ghost predicate IdsIncreasing(ws: seq<Workout>) {
    forall i :: 0 < i < |ws| ==> ws[i - 1].id < ws[i].id
  }

  /** The clock reading `now` is later than the last id logged (with
      increasing ids, later than every one). */
  ghost predicate ClockAfter(ws: seq<Workout>, now: int) {
    ws == [] || ws[|ws| - 1].id < now
  }

  /** Appending a record whose id is later than the last keeps the ids
      increasing. */
  lemma AppendKeepsIdsIncreasing(ws: seq<Workout>, w: Workout)
    requires IdsIncreasing(ws) && ClockAfter(ws, w.id)
    ensures IdsIncreasing(ws + [w])
  {
  }

  /** Every logged name has a character that is not white space. */
  ghost predicate NamesNonBlank(ws: seq<Workout>) {
    forall i :: 0 <= i < |ws| ==> !IsBlank(ws[i].name)
  }

  /** Appending a record with a non-blank name keeps every name non-blank. */
  lemma AppendKeepsNamesNonBlank(ws: seq<Workout>, w: Workout)
    requires NamesNonBlank(ws) && !IsBlank(w.name)
    ensures NamesNonBlank(ws + [w])
  {
  }

  /** No two workouts share an id, so the ids are usable as list keys. */
  ghost predicate IdsDistinct(ws: seq<Workout>) {
    forall i, j :: 0 <= i < |ws| && 0 <= j < |ws| && i != j ==> ws[i].id != ws[j].id
  }

  /** Increasing from one record to the next is increasing between any two. */
  lemma {:induction false} IncreasingIdsAreOrdered(ws: seq<Workout>)
    requires IdsIncreasing(ws)
    ensures forall i, j :: 0 <= i < j < |ws| ==> ws[i].id < ws[j].id
  {
    if |ws| > 1 {
      var init := ws[..|ws| - 1];
      assert IdsIncreasing(init) by {
        forall i | 0 < i < |init| ensures init[i - 1].id < init[i].id {
          assert init[i - 1] == ws[i - 1] && init[i] == ws[i];
        }
      }
      IncreasingIdsAreOrdered(init);
      forall i, j | 0 <= i < j < |ws| ensures ws[i].id < ws[j].id {
        if j < |ws| - 1 {
          assert ws[i] == init[i] && ws[j] == init[j];
        } else if i < j - 1 {
          assert ws[i] == init[i] && ws[j - 1] == init[j - 1];
        }
      }
    }
  }

  /** Strictly increasing ids never repeat. */
  lemma IncreasingIdsAreDistinct(ws: seq<Workout>)
    requires IdsIncreasing(ws)
    ensures IdsDistinct(ws)
  {
    IncreasingIdsAreOrdered(ws);
  }

  /** The rows for `ws`: one per workout, in list order, keyed by its id and
      showing its name. */
  function Rows(ws: seq<Workout>): (r: seq<ListItem>)
    ensures |r| == |ws|
    ensures forall i :: 0 <= i < |ws| ==> r[i].key == ws[i].id && r[i].text == ws[i].name
  {
    if ws == [] then [] else [ListItem(ws[0].id, ws[0].name)] + Rows(ws[1..])
  }

  /** What the list part of the page shows for `ws`: the placeholder exactly
      when nothing is logged, otherwise one row per workout in list order. */
  function Render(ws: seq<Workout>): (v: ListView)
    ensures v.Placeholder? <==> |ws| == 0
    ensures v.List? ==> |v.items| == |ws|
    ensures v.List? ==> forall i :: 0 <= i < |ws| ==> v.items[i] == ListItem(ws[i].id, ws[i].name)
  {
    if |ws| == 0 then Placeholder else List(Rows(ws))
  }

  /** Logging one more workout adds one row at the bottom and leaves the rows
      above it as they were. */
  lemma RenderAfterAppend(ws: seq<Workout>, w: Workout)
    ensures Render(ws + [w]).List?
    ensures Render(ws + [w]).items
         == (if ws == [] then [] else Render(ws).items) + [ListItem(w.id, w.name)]
  {
  }

  /** With increasing ids, no two rows of the rendered list share a key. */
  lemma RenderKeysDistinct(ws: seq<Workout>)
    requires IdsIncreasing(ws)
    ensures Render(ws).List? ==>
      forall i, j :: 0 <= i < |ws| && 0 <= j < |ws| && i != j ==>
        Render(ws).items[i].key != Render(ws).items[j].key
  {
    IncreasingIdsAreDistinct(ws);
  }

  /** The page component's state and its two handlers. */
  class Page {
    /** The logged workouts, oldest first. */
    var workouts: seq<Workout>
    /** The current text of the input field. */
    var newWorkout: string

    /** Only non-blank names are ever logged. */
    ghost predicate Valid()
      reads this
    {
      NamesNonBlank(workouts)
    }

    /** The page on first render: nothing logged, the field empty. */
    constructor ()
      ensures Valid()
      ensures workouts == [] && newWorkout == ""
    {
      workouts := [];
      newWorkout := "";
    }

    /** The input field's change handler: the field now holds `s`. */
    method SetInput(s: string)
      requires Valid()
      modifies this
      ensures Valid()
      ensures newWorkout == s && workouts == old(workouts)
    {
      newWorkout := s;
    }

    /** The "Log Workout" handler, with `now` the clock reading.  Blank input
        is refused and nothing changes, the field included; otherwise the
        text as typed (not trimmed) is logged under id `now` at the end of
        the list and the field is cleared. */
    method AddWorkout(now: int) returns (outcome: Outcome)
      requires Valid()
      modifies this
      ensures Valid()
      ensures outcome == Error <==> IsBlank(old(newWorkout))
      ensures outcome == Error ==> workouts == old(workouts) && newWorkout == old(newWorkout)
      ensures outcome == Success ==>
        workouts == old(workouts) + [Workout(now, old(newWorkout))] && newWorkout == ""
      ensures IdsIncreasing(old(workouts)) && ClockAfter(old(workouts), now) ==> IdsIncreasing(workouts)
    {
      var blank := TrimsToEmpty(newWorkout);
      if blank {
        outcome := Error;
        return;
      }
      var w := Workout(now, newWorkout);
      AppendKeepsNamesNonBlank(workouts, w);
      if IdsIncreasing(workouts) && ClockAfter(workouts, now) {
        AppendKeepsIdsIncreasing(workouts, w);
      }
      workouts := workouts + [w];
      newWorkout := "";
      outcome := Success;
    }
  }
}
