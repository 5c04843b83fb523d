// Notes about one caller, with the revision that every change advances and the generation
// that forgetting advances.
module CallerNotes {
  import opened Wrappers

  const NOTES_LIMIT: nat := 8000

  type Caller = string

  datatype Version = Version(revision: nat, generation: nat)

  // What snapshot reads; a caller without rows has empty notes at revision 0.
  datatype Notes = Notes(text: string, revision: nat, generation: nat)

  const NO_NOTES := Notes("", 0, 0)

  function Replaced(n: Notes, text: string, expected: Option<int>): Result<Notes> {
    if |text| > NOTES_LIMIT then Err(Invalid)
    else if expected.Some? && expected.value != n.revision then Err(Conflict)
    else Ok(Notes(text, n.revision + 1, n.generation))
  }

  function Forgotten(n: Notes): Notes {
    Notes("", n.revision + 1, n.generation + 1)
  }

  class CallerStore {
    var notes: map<Caller, string>
    var versions: map<Caller, Version>

    constructor ()
      ensures notes == map[] && versions == map[]
    {
      notes, versions := map[], map[];
    }

    function View(caller: Caller): Notes
      reads this
    {
      var v := if caller in versions then versions[caller] else Version(0, 0);
      Notes(if caller in notes then notes[caller] else "", v.revision, v.generation)
    }

    // The storage primitive behind every write of notes.
    method ReplaceNotes(caller: Caller, text: string, expected: Option<int>) returns (r: Result<()>)
      modifies this
      ensures var want := Replaced(old(View(caller)), text, expected);
        && (r.Ok? <==> want.Ok?)
        && (want.Err? ==> r == Err(want.error) && notes == old(notes) && versions == old(versions))
        && (want.Ok? ==> View(caller) == want.value)
      ensures forall c :: c != caller ==> View(c) == old(View(c))
    {
      if |text| > NOTES_LIMIT {
        return Err(Invalid);
      }
      var current := View(caller);
      if expected.Some? && expected.value != current.revision {
        return Err(Conflict);
      }
      versions := versions[caller := Version(current.revision + 1, current.generation)];
      notes := notes[caller := text];
      return Ok(());
    }

    method Forget(caller: Caller)
      modifies this
      ensures View(caller) == Forgotten(old(View(caller))) && caller !in notes
      ensures forall c :: c != caller ==> View(c) == old(View(c))
    {
      var was := View(caller);
      versions := versions[caller := Version(was.revision + 1, was.generation + 1)];
      notes := notes - {caller};
    }
  }
}
