/** What the pages share: badge variants, zod's issue list, the message a
    form field shows, and the navigations and toasts a handler leaves behind.

    A zod object schema checks every field in declaration order and collects
    one issue per failed check (a string with both `.min` and `.email` that
    is empty fails both); an object-level `.refine` runs afterwards and adds
    its issue at the path it names, unless a field failed in a way zod treats
    as aborting the object (an invalid enum value). The form resolver shows,
    for each field, the first issue at that path, and calls the submit
    handler only when the list is empty. Amount rows (`{amount && <row/>}`)
    are here too, as written and as evidently intended. */
module Ui {
  import opened Wrappers

  /** The `variant` of a `Badge`. */
  datatype BadgeVariant = Default | Secondary | Destructive | Outline | Success | Warning

  datatype Issue = Issue(path: string, message: string)

  /** One check of a schema: no issue when it holds, else one at `path`. */
  function Check(ok: bool, path: string, message: string): (r: seq<Issue>)
    ensures r == [] <==> ok
    ensures !ok ==> r == [Issue(path, message)]
    ensures forall i :: 0 <= i < |r| ==> r[i].path == path
  {
    if ok then [] else [Issue(path, message)]
  }

  /** The message shown under the field `path`: the first issue there. */
  function FirstError(issues: seq<Issue>, path: string): (r: Option<string>)
    ensures r.None? <==> forall i :: 0 <= i < |issues| ==> issues[i].path != path
    ensures r.Some? ==> exists i :: 0 <= i < |issues| && issues[i] == Issue(path, r.value) &&
                          forall j :: 0 <= j < i ==> issues[j].path != path
  {
    if issues == [] then None
    else if issues[0].path == path then Some(issues[0].message)
    else FirstError(issues[1..], path)
  }

  /** A check of another field shows nothing under `path`. */
  lemma CheckElsewhere(ok: bool, field: string, message: string, path: string)
    requires field != path
    ensures FirstError(Check(ok, field, message), path).None?
  {
    if !ok {
      assert Check(ok, field, message)[0].path == field;
    }
  }

  /** The message for a field of two issue lists joined: the first list's,
      if it has one there. */
  lemma {:induction false} FirstErrorAppend(a: seq<Issue>, b: seq<Issue>, path: string)
    ensures FirstError(a + b, path) == if FirstError(a, path).Some? then FirstError(a, path) else FirstError(b, path)
  {
    if a == [] {
      assert a + b == b;
    } else {
      assert (a + b)[0] == a[0];
      assert (a + b)[1..] == a[1..] + b;
      FirstErrorAppend(a[1..], b, path);
    }
  }

  /** A call of `navigate(to, { replace })`. */
  datatype Navigation = Navigation(to: string, replace: bool)

  /** A call of `toast({ title, description, variant })`. */
  datatype Toast = Toast(title: string, description: string, destructive: bool)

  /** What `{amount && <row/>}` puts on the page for an optional number:
      nothing, the row, or — since React prints the number 0 that `&&` hands
      back — a bare "0". */
  datatype AmountCell = Nothing | StrayZero | AmountShown(amount: real)

  /** A row guarded by `{amount && ...}`, as the pages write it. */
  function AmountRowAsWritten(amount: Option<real>): AmountCell
  {
    if amount.None? then Nothing
    else if amount.value == 0.0 then StrayZero
    else AmountShown(amount.value)
  }

  /** The evident intent: the row is shown exactly for a present, non-zero
      amount and is hidden otherwise. */
  function AmountRow(amount: Option<real>): (r: Option<real>)
    ensures r.Some? <==> amount.Some? && amount.value != 0.0
    ensures r.Some? ==> r == amount
  {
    if amount.Some? && amount.value != 0.0 then amount else None
  }

  /** The two differ only by the stray zero. */
  lemma AmountRowFixOnlyDropsZero(amount: Option<real>)
    ensures AmountRowAsWritten(amount) == StrayZero <==> amount == Some(0.0)
    ensures AmountRowAsWritten(amount) != StrayZero ==>
              (AmountRow(amount).Some? <==> AmountRowAsWritten(amount).AmountShown?)
  {
  }
}
