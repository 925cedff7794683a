/**
 * The example complaint of `handlers.py`, created in a fresh store; the store
 * is then listed, a step the example block itself does not take.
 */
module Example {
  import opened Wrappers
  import opened Values
  import opened Validation
  import opened Repository

  /**
   * Creating the sample complaint in an empty store succeeds, and listing the
   * store afterwards yields exactly one document, the one for "John Doe".
   */
  method SampleScenario(parse: string -> Option<Key>, show: Key -> string, clock: int)
    returns (created: Result<string, FieldError>, listed: seq<Document>)
    requires forall k: Key :: parse(show(k)) == Some(k)
    ensures created.Ok? && parse(created.value).Some?
    ensures |listed| == 1
    ensures listed[0].fields == SampleComplaint["created_at" := Time(clock)]["updated_at" := Time(clock)]
  {
    var store := new ComplaintStore(parse, show, clock);
    var data := new Dict(SampleComplaint);
    SampleComplaintAccepted();
    created := store.Create(data, clock, clock);
    assert store.table == map[0 := data.entries];
    listed := store.ListAll();
  }
}
