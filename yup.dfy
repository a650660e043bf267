/**
 * What the forms see of a Yup schema: `validate(value, { abortEarly: false })`
 * rejects with a ValidationError whose `inner` list holds one entry per
 * failing test, each naming the field (`path`) and the test's message. The
 * pages then walk `inner` with `forEach`, writing each message into an error
 * record under its path, so a later message for the same path overwrites an
 * earlier one.
 *
 * Each page's schema is modelled in that page's module as a function that
 * lists the failing tests in the order the schema declares the fields and,
 * within a field, the tests.
 */
module Yup {
  import opened Types

  datatype ValidationError = ValidationError(path: string, message: string)

  /** The message of the last error that names `path`, if any. */
  function LastMessage(errors: seq<ValidationError>, path: string): (m: Option<string>)
    ensures m.None? <==> forall i :: 0 <= i < |errors| ==> errors[i].path != path
    ensures m.Some? ==> exists i :: 0 <= i < |errors| && errors[i] == ValidationError(path, m.value)
                                    && forall j :: i < j < |errors| ==> errors[j].path != path
  {
    if errors == [] then None
    else if errors[|errors| - 1].path == path then Some(errors[|errors| - 1].message)
    else LastMessage(errors[..|errors| - 1], path)
  }

  /** The `forEach` over `inner`: every path that has an error ends up with
      the message of its last error, and no other path is written. */
  method CollectMessages(errors: seq<ValidationError>) returns (messages: map<string, string>)
    ensures forall path :: Lookup(messages, path) == LastMessage(errors, path)
  {
    messages := map[];
    var i := 0;
    while i < |errors|
      invariant 0 <= i <= |errors|
      invariant forall path :: Lookup(messages, path) == LastMessage(errors[..i], path)
    {
      var e := errors[i];
      assert errors[..i + 1][..i] == errors[..i];
      messages := messages[e.path := e.message];
      i := i + 1;
    }
    assert errors[..|errors|] == errors;
  }

  /** One more error at the end: it wins when it names `path`. */
  lemma LastMessageSnoc(s: seq<ValidationError>, e: ValidationError, path: string)
    ensures LastMessage(s + [e], path) == if e.path == path then Some(e.message) else LastMessage(s, path)
  {
    assert (s + [e])[..|s|] == s;
  }

  /** Errors of one field are not overwritten by the errors of another:
      the message left under `path` is the last one the later list gives
      it, or else the last one the earlier list gives it. */
  lemma {:induction false} LastMessageAppend(a: seq<ValidationError>, b: seq<ValidationError>, path: string)
    ensures LastMessage(a + b, path) == if LastMessage(b, path).Some? then LastMessage(b, path) else LastMessage(a, path)
  {
    if b == [] {
      assert a + b == a;
    } else {
      var front, e := b[..|b| - 1], b[|b| - 1];
      assert b == front + [e];
      assert a + b == (a + front) + [e];
      LastMessageSnoc(a + front, e, path);
      LastMessageSnoc(front, e, path);
      LastMessageAppend(a, front, path);
    }
  }

  /** A list whose errors all name `path` leaves the message of its last
      error under `path`, and nothing under any other path. */
  lemma OneField(errors: seq<ValidationError>, path: string, other: string)
    requires forall i :: 0 <= i < |errors| ==> errors[i].path == path
    requires other != path
    ensures LastMessage(errors, path) == if errors == [] then None else Some(errors[|errors| - 1].message)
    ensures LastMessage(errors, other) == None
  {
  }

  /** The message left under `path` by a schema of three fields whose
      errors `a`, `b` and `c` are walked in that order. */
  lemma ThreeFields(a: seq<ValidationError>, b: seq<ValidationError>, c: seq<ValidationError>, path: string)
    ensures LastMessage(a + b + c, path) ==
              if LastMessage(c, path).Some? then LastMessage(c, path)
              else if LastMessage(b, path).Some? then LastMessage(b, path)
              else LastMessage(a, path)
  {
    LastMessageAppend(a + b, c, path);
    LastMessageAppend(a, b, path);
  }

  /** The message of the last error in `errors`, if any. */
  function Last(errors: seq<ValidationError>): Option<string> {
    if errors == [] then None else Some(errors[|errors| - 1].message)
  }

  /** The field `own` of three is not disturbed by the other two, in
      whichever order the three are walked. */
  lemma OwnPath(own: seq<ValidationError>, x: seq<ValidationError>, y: seq<ValidationError>,
                p: string, px: string, py: string)
    requires p != px && p != py
    requires forall i :: 0 <= i < |own| ==> own[i].path == p
    requires forall i :: 0 <= i < |x| ==> x[i].path == px
    requires forall i :: 0 <= i < |y| ==> y[i].path == py
    ensures LastMessage(own, p) == Last(own)
    ensures LastMessage(x, p) == None && LastMessage(y, p) == None
  {
    OneField(own, p, px);
    OneField(x, px, p);
    OneField(y, py, p);
  }

  /** A schema of three fields whose errors name `pa`, `pb` and `pc`:
      each field shows the last of its own messages, whatever the others
      report, and no other path gets a message. */
  lemma SeparateFields(a: seq<ValidationError>, b: seq<ValidationError>, c: seq<ValidationError>,
                       pa: string, pb: string, pc: string, other: string)
    requires pa != pb && pb != pc && pa != pc
    requires forall i :: 0 <= i < |a| ==> a[i].path == pa
    requires forall i :: 0 <= i < |b| ==> b[i].path == pb
    requires forall i :: 0 <= i < |c| ==> c[i].path == pc
    requires other != pa && other != pb && other != pc
    ensures LastMessage(a + b + c, pa) == Last(a)
    ensures LastMessage(a + b + c, pb) == Last(b)
    ensures LastMessage(a + b + c, pc) == Last(c)
    ensures LastMessage(a + b + c, other) == None
  {
    ThreeFields(a, b, c, pa);
    ThreeFields(a, b, c, pb);
    ThreeFields(a, b, c, pc);
    OwnPath(a, b, c, pa, pb, pc);
    OwnPath(b, a, c, pb, pa, pc);
    OwnPath(c, a, b, pc, pa, pb);
    ThreeFields(a, b, c, other);
    OneField(a, pa, other);
    OneField(b, pb, other);
    OneField(c, pc, other);
  }
}
