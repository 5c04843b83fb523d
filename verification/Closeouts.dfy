// The closeout of one call: the durable row that collects extracted facts while the call
// runs, is sealed when it ends, and is then merged into the caller's notes once.
//
// Each function is one transaction on the row. Identities that the source hashes are the
// values themselves; what the model answers is an arbitrary value that the code validates.
module Closeouts {
  import opened Wrappers
  import opened CallerNotes
  import JsonSize

  const RECOVERY_SECONDS: int := 86400
  const BATCH_CHARS: nat := 24000

  datatype Direction = Input | Output

  datatype Event = Event(id: string, direction: Direction, text: string, timestamp: int)

  // `signature` stands for the normalized text, the kind and the due date.
  datatype Update = Update(id: string, source: string, signature: string, reportedAt: int, due: Option<string>)

  datatype Candidate = Candidate(update: Update, quote: string, clear: bool, relevant: bool)

  datatype Status = Pending | Saved | Skipped | Failed
  {
    predicate Terminal() {
      !Pending?
    }
  }

  datatype Row = Row(
    generation: nat,
    startedAt: int,
    endedAt: Option<int>,
    deadline: int,
    status: Status,
    complete: bool,
    sealed: bool,
    updates: seq<Update>,
    batches: map<seq<Event>, seq<string>>,
    hashes: map<string, Event>,
    saved: nat,
    attempts: nat,
    expired: bool)
  {
    // The endpoint, profile and permissions are re-read each time; `allowed` is what they say.
    predicate Authorized(now: int, allowed: bool, generation: nat) {
      now <= deadline && allowed && generation == this.generation
    }

    predicate Open() {
      !sealed && status.Pending?
    }
  }

  function Begun(notes: Notes, now: int, minutes: nat): Row {
    Row(notes.generation, now, None, now + minutes * 60 + RECOVERY_SECONDS, Pending, true, false, [], map[], map[], 0,
        0, false)
  }

  function Ids(events: seq<Event>): seq<string> {
    seq(|events|, i requires 0 <= i < |events| => events[i].id)
  }

  function TextLength(events: seq<Event>): nat {
    if events == [] then 0 else TextLength(events[..|events| - 1]) + |events[|events| - 1].text|
  }

  // ----- _events -----

  predicate Blank(text: string) {
    forall i :: 0 <= i < |text| ==> Space(text[i] as int)
  }

  // The characters that Python strips.
  predicate Space(c: int) {
    9 <= c <= 13 || 28 <= c <= 32 || c in {0x85, 0xa0, 0x1680, 0x2028, 0x2029, 0x202f, 0x205f, 0x3000}
      || 0x2000 <= c <= 0x200a
  }

  predicate ValidEvent(row: Row, e: Event, now: int) {
    && 1 <= |e.id| <= 128
    && !Blank(e.text) && |e.text| <= BATCH_CHARS
    && row.startedAt - 5 <= e.timestamp
    && e.timestamp <= now + 5
    && e.timestamp <= (if row.endedAt.Some? then row.endedAt.value else now) + 30
  }

  const ENCODED_LIMIT: nat := 100000

  // A time is a number of whole seconds with a decimal point.
  function StampWidth(t: int): nat {
    (if t < 0 then 1 + JsonSize.Digits(-t) else JsonSize.Digits(t)) + 2
  }

  function EventFields(e: Event): seq<JsonSize.Field> {
    [JsonSize.Field("event_id", JsonSize.Text(e.id)),
     JsonSize.Field("direction", JsonSize.Text(if e.direction.Input? then "input" else "output")),
     JsonSize.Field("text", JsonSize.Text(e.text)),
     JsonSize.Field("timestamp", JsonSize.Literal(StampWidth(e.timestamp)))]
  }

  function EventSize(e: Event): nat {
    JsonSize.ObjectSize(JsonSize.Ascii, EventFields(e))
  }

  function EventsSize(events: seq<Event>): nat {
    if events == [] then 0 else EventsSize(events[..|events| - 1]) + EventSize(events[|events| - 1]) + 2
  }

  // The length of a batch as escaped JSON.
  function EncodedSize(events: seq<Event>): nat {
    if events == [] then 2 else EventsSize(events)
  }

  predicate ValidBatch(row: Row, events: seq<Event>, now: int) {
    && |events| <= 100 && EncodedSize(events) <= ENCODED_LIMIT
    && (forall e :: e in events ==> ValidEvent(row, e, now))
    && TextLength(events) <= BATCH_CHARS
  }

  // ----- checkpoint -----

  // Later entries replace earlier ones, as in the dictionary of fingerprints.
  function HashesOf(events: seq<Event>): (h: map<string, Event>)
    ensures forall id :: id in h <==> id in Ids(events)
    ensures forall id :: id in h ==> h[id].id == id && h[id] in events
  {
    if events == [] then map[] else
      var last := events[|events| - 1];
      var before := HashesOf(events[..|events| - 1]);
      assert forall id :: id in Ids(events) <==> id in Ids(events[..|events| - 1]) || id == last.id by {
        assert Ids(events) == Ids(events[..|events| - 1]) + [last.id];
      }
      before[last.id := last]
  }

  function Unrecorded(events: seq<Event>, hashes: map<string, Event>): (r: seq<Event>)
    ensures forall e :: e in r <==> e in events && e.id !in hashes
    ensures forall id :: id in Ids(r) <==> id in Ids(events) && id !in hashes
  {
    if events == [] then [] else
      var last := events[|events| - 1];
      assert Ids(events) == Ids(events[..|events| - 1]) + [last.id];
      var before := Unrecorded(events[..|events| - 1], hashes);
      if last.id in hashes then before
      else
        assert Ids(before + [last]) == Ids(before) + [last.id];
        before + [last]
  }

  predicate SameIdentities(events: seq<Event>, hashes: map<string, Event>) {
    var h := HashesOf(events);
    forall id :: id in h && id in hashes ==> h[id] == hashes[id]
  }

  // The part before the model is asked: nothing new, or the events to extract from.
  function PrepareCheckpoint(row: Row, events: seq<Event>, now: int, allowed: bool,
                             generation: nat): Result<Option<seq<Event>>> {
    if !row.Authorized(now, allowed, generation) then Err(Denied)
    else if !ValidBatch(row, events, now) || !SameIdentities(events, row.hashes) then Err(Invalid)
    else
      var news := Unrecorded(events, row.hashes);
      if news == [] || news in row.batches then Ok(None)
      else if !row.Open() then Err(Denied)
      else Ok(Some(news))
  }

  predicate Quotes(text: string, quote: string) {
    exists i :: 0 <= i <= |text| - |quote| && text[i..][..|quote|] == quote
  }

  function Evidence(news: seq<Event>, id: string): (e: Option<Event>)
    ensures e.Some? ==> e.value in news && e.value.id == id && e.value.direction.Input?
  {
    if news == [] then None else
      var last := news[|news| - 1];
      if last.id == id && last.direction.Input? then Some(last) else Evidence(news[..|news| - 1], id)
  }

  predicate Grounded(news: seq<Event>, c: Candidate) {
    var e := Evidence(news, c.update.source);
    e.Some? && !Blank(c.quote) && Quotes(e.value.text, c.quote)
  }

  // A single unfounded candidate refuses the whole answer; unclear or irrelevant ones are dropped.
  function Validated(news: seq<Event>, output: seq<Candidate>): (r: Result<seq<Update>>)
    ensures r.Ok? ==> forall u ::
      u in r.value ==> exists c :: c in output && c.update == u && c.clear && c.relevant && Grounded(news, c)
  {
    if |output| > 32 || exists c :: c in output && !Grounded(news, c) then Err(Invalid)
    else Ok(Clear(output))
  }

  function Clear(output: seq<Candidate>): (us: seq<Update>)
    ensures forall u :: u in us <==> exists c :: c in output && c.update == u && c.clear && c.relevant
  {
    if output == [] then [] else
      var last := output[|output| - 1];
      assert forall c :: c in output <==> c in output[..|output| - 1] || c == last;
      Clear(output[..|output| - 1]) + if last.clear && last.relevant then [last.update] else []
  }

  predicate Seen(have: seq<Update>, u: Update) {
    exists v :: v in have && v.signature == u.signature
  }

  function AddUpdates(have: seq<Update>, more: seq<Update>): seq<Update>
    decreases |more|
  {
    if more == [] then have
    else AddUpdates(if Seen(have, more[0]) then have else have + [more[0]], more[1..])
  }

  // The part after the model has answered. `room` says that the list stays below its bound.
  function CommitCheckpoint(row: Row, events: seq<Event>, news: seq<Event>, output: seq<Candidate>, room: bool,
                            now: int, allowed: bool, generation: nat): Result<Row> {
    match Validated(news, output)
    case Err(e) => Err(e)
    case Ok(updates) =>
      if !row.Authorized(now, allowed, generation) || !row.Open() then Err(Denied)
      else if news in row.batches then Ok(row)
      else if !room then Err(Invalid)
      else Ok(row.(updates := AddUpdates(row.updates, updates),
                   batches := row.batches[news := Ids(news)],
                   hashes := row.hashes + HashesOf(events)))
  }

  // ----- ended, finalize -----

  function EndedAt(row: Row, now: int): Row {
    if row.endedAt.Some? then row
    else row.(endedAt := Some(now),
              deadline := if row.deadline <= now + RECOVERY_SECONDS then row.deadline else now + RECOVERY_SECONDS)
  }

  // None: nothing left to seal.
  function Seal(row: Row, complete: bool, now: int, allowed: bool, generation: nat): Result<Option<Row>> {
    if row.status.Terminal() then Ok(None)
    else if !row.Authorized(now, allowed, generation) then Err(Denied)
    else if row.sealed then Ok(None)
    else
      var end := if row.endedAt.Some? then row.endedAt.value else now;
      Ok(Some(row.(sealed := true, endedAt := Some(end), complete := row.complete && complete,
                   deadline := if row.deadline <= end + RECOVERY_SECONDS then row.deadline
                     else end + RECOVERY_SECONDS)))
  }

  // ----- _commit -----

  datatype Merged = Merged(row: Row, notes: Notes)

  function FailedCommit(row: Row, now: int, fatal: bool): Row {
    if row.status.Terminal() then row
    else row.(attempts := row.attempts + 1, status := if fatal || now >= row.deadline then Failed else Pending)
  }

  // The final transaction: `note` was computed from `base`, with `applied` changes.
  function CommitNotes(row: Row, notes: Notes, base: Notes, updates: seq<Update>, note: string, applied: nat,
                       now: int, allowed: bool): Merged {
    if row.status.Terminal() then Merged(row, notes)
    else if |note| > NOTES_LIMIT || !row.Authorized(now, allowed, notes.generation)
      then Merged(FailedCommit(row, now, true), notes)
    else if notes.revision != base.revision then Merged(FailedCommit(row, now, false), notes)
    else
      var after := if applied > 0 then Replaced(notes, note, Some(base.revision)) else Ok(notes);
      var status := if !row.complete then Failed else if updates != [] then Saved else Skipped;
      if after.Err? then Merged(FailedCommit(row, now, false), notes)
      else Merged(row.(status := status, saved := applied, updates := []), after.value)
  }

  // ----- _recover -----

  function Expired(copy: Row): Row {
    copy.(status := Failed, updates := [], expired := true)
  }
}
