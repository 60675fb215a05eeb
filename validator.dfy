/**
 * `validate` of server/src/utils/validator.ts: runs after the checks of a
 * schema and turns the mapped field errors into exactly one call of `next`.
 * The mapped errors are given as a sequence of (field, error) pairs in the
 * object's iteration order.
 */
module Validator {
  import opened Wrappers
  import opened Models
  import opened Errors

  /** The argument `next` is called with: nothing, or an error. */
  datatype NextArg = Proceed | Fail(err: AppError)

  /** A field error that `validate` forwards on its own: an `ErrorWithStatus` whose status is not 422. */
  predicate Blocking(fe: FieldError) {
    fe.msg.Thrown? && fe.msg.error.status != UNPROCESSABLE_ENTITY
  }

  /** Field names are the keys of an object: each appears once. */
  ghost predicate DistinctKeys(mapped: seq<(string, FieldError)>) {
    forall i, j :: 0 <= i < j < |mapped| ==> mapped[i].0 != mapped[j].0
  }

  /** The position of the first blocking field error, if any. */
  function FirstBlocking(mapped: seq<(string, FieldError)>): (k: Option<nat>)
    ensures k.Some? ==> k.value < |mapped| && Blocking(mapped[k.value].1)
    ensures k.Some? ==> forall j :: 0 <= j < k.value ==> !Blocking(mapped[j].1)
    ensures k.None? ==> forall j :: 0 <= j < |mapped| ==> !Blocking(mapped[j].1)
  {
    if |mapped| == 0 then None
    else if Blocking(mapped[0].1) then Some(0)
    else match FirstBlocking(mapped[1..])
      case None => None
      case Some(k) => Some(k + 1)
  }

  /** The record filled by `entityErrors.errors[key] = errorsObject[key]`, entry by entry. */
  function Collected(mapped: seq<(string, FieldError)>): ErrorsType {
    if |mapped| == 0 then map[]
    else Collected(mapped[..|mapped| - 1])[mapped[|mapped| - 1].0 := mapped[|mapped| - 1].1]
  }

  /** What `next` receives, as a reference definition of the loop. */
  function ValidationOutcome(mapped: seq<(string, FieldError)>): NextArg {
    if |mapped| == 0 then Proceed
    else match FirstBlocking(mapped)
      case Some(k) => Fail(mapped[k].1.msg.error)
      case None => Fail(NewEntityError(None, Collected(mapped)))
  }

  /** With distinct field names, the collected record holds every field with its entry unchanged, and nothing else. */
  lemma {:induction false} CollectedEntries(mapped: seq<(string, FieldError)>)
    requires DistinctKeys(mapped)
    ensures forall i :: 0 <= i < |mapped| ==> mapped[i].0 in Collected(mapped) && Collected(mapped)[mapped[i].0] == mapped[i].1
    ensures forall key :: key in Collected(mapped) ==> exists i :: 0 <= i < |mapped| && mapped[i].0 == key
  {
    if |mapped| > 0 {
      var front := mapped[..|mapped| - 1];
      assert DistinctKeys(front);
      CollectedEntries(front);
      forall key | key in Collected(mapped) ensures exists i :: 0 <= i < |mapped| && mapped[i].0 == key {
        if key != mapped[|mapped| - 1].0 {
          var i :| 0 <= i < |front| && front[i].0 == key;
          assert mapped[i].0 == key;
        }
      }
    }
  }

  /**
   * A blocking error is forwarded alone and the fields after it are not
   * examined: appending anything after it does not change the outcome.
   */
  lemma {:induction false} LaterFieldsNotExamined(mapped: seq<(string, FieldError)>, rest: seq<(string, FieldError)>)
    requires FirstBlocking(mapped).Some?
    ensures ValidationOutcome(mapped + rest) == ValidationOutcome(mapped)
    ensures ValidationOutcome(mapped) == Fail(mapped[FirstBlocking(mapped).value].1.msg.error)
  {
    var k := FirstBlocking(mapped).value;
    var all := mapped + rest;
    assert all[k] == mapped[k];
    assert forall j :: 0 <= j < k ==> all[j] == mapped[j];
    var k' := FirstBlocking(all);
    assert k'.Some?;
    assert k'.value == k;
  }

  /**
   * Without a blocking error, `next` receives a 422 `EntityError` with the
   * default message, holding every field error unchanged.
   */
  lemma EntityErrorCarriesEveryField(mapped: seq<(string, FieldError)>)
    requires |mapped| > 0 && DistinctKeys(mapped)
    requires forall i :: 0 <= i < |mapped| ==> !Blocking(mapped[i].1)
    ensures ValidationOutcome(mapped).Fail?
    ensures ValidationOutcome(mapped).err.EntityError?
    ensures ValidationOutcome(mapped).err.status == UNPROCESSABLE_ENTITY
    ensures ValidationOutcome(mapped).err.message == VALIDATION_ERRORS
    ensures forall i :: 0 <= i < |mapped| ==>
              mapped[i].0 in ValidationOutcome(mapped).err.errors && ValidationOutcome(mapped).err.errors[mapped[i].0] == mapped[i].1
    ensures ValidationOutcome(mapped).err.errors.Keys == set i | 0 <= i < |mapped| :: mapped[i].0
  {
    CollectedEntries(mapped);
  }

  /** `validate`'s request handler, after `validation.run(req)`: exactly one `next` call, whose argument is returned. */
  method Validate(mapped: seq<(string, FieldError)>) returns (next: NextArg)
    ensures next == ValidationOutcome(mapped)
    ensures next == Proceed <==> mapped == []
  {
    if |mapped| == 0 {
      return Proceed;
    }
    var entityErrors := NewEntityError(None, map[]);
    var i := 0;
    while i < |mapped|
      invariant 0 <= i <= |mapped|
      invariant entityErrors == NewEntityError(None, Collected(mapped[..i]))
      invariant forall j :: 0 <= j < i ==> !Blocking(mapped[j].1)
    {
      var (key, fieldError) := mapped[i];
      if Blocking(fieldError) {
        return Fail(fieldError.msg.error);
      }
      assert mapped[..i + 1][..i] == mapped[..i];
      entityErrors := entityErrors.(errors := entityErrors.errors[key := fieldError]);
      i := i + 1;
    }
    assert mapped[..i] == mapped;
    return Fail(entityErrors);
  }
}
