/** The toast notifications of src/hooks/use-toast.ts: the list operations of the `useToast` hook
    (`open` appends with a fresh id, `close` filters by id, `update` merges by id), the
    module-wide id counter, and the `toast` facade that forwards to a registered hook. */
module Toast {
  import opened Records
  import Text

  datatype Variant = Default | Destructive

  /** The props a toast is opened or updated with; an absent field is `None`. The `action` node
      is not part of this model. */
  datatype ToastFields = ToastFields(title: Option<string>, description: Option<string>,
                                     variant: Option<Variant>)

  datatype ToastItem = ToastItem(id: string, fields: ToastFields)

  /** `{ ...base, ...p }`: every field present in `p` replaces the one in `base`. */
  function MergeFields(base: ToastFields, p: ToastFields): (r: ToastFields)
    ensures p.title.Some? ==> r.title == p.title
    ensures p.title.None? ==> r.title == base.title
    ensures p.description.Some? ==> r.description == p.description
    ensures p.description.None? ==> r.description == base.description
    ensures p.variant.Some? ==> r.variant == p.variant
    ensures p.variant.None? ==> r.variant == base.variant
  {
    ToastFields(if p.title.Some? then p.title else base.title,
                if p.description.Some? then p.description else base.description,
                if p.variant.Some? then p.variant else base.variant)
  }

  /** `[...toasts, { id, ...props }]`. */
  function Opened(toasts: seq<ToastItem>, id: string, props: ToastFields): (r: seq<ToastItem>)
    ensures |r| == |toasts| + 1
    ensures r[..|toasts|] == toasts
    ensures r[|toasts|] == ToastItem(id, props)
  {
    toasts + [ToastItem(id, props)]
  }

  /** `toasts.filter(t => t.id !== id)`. */
  function Closed(toasts: seq<ToastItem>, id: string): (r: seq<ToastItem>)
    ensures |r| <= |toasts|
    ensures forall t :: t in r <==> t in toasts && t.id != id
  {
    if toasts == [] then []
    else if toasts[0].id == id then Closed(toasts[1..], id)
    else [toasts[0]] + Closed(toasts[1..], id)
  }

  /** `toasts.map(t => t.id === id ? { ...t, ...p } : t)`. */
  function Updated(toasts: seq<ToastItem>, id: string, p: ToastFields): (r: seq<ToastItem>)
    ensures |r| == |toasts|
    ensures forall i :: 0 <= i < |r| ==> r[i].id == toasts[i].id
    ensures forall i :: 0 <= i < |r| && toasts[i].id == id ==>
              r[i].fields == MergeFields(toasts[i].fields, p)
    ensures forall i :: 0 <= i < |r| && toasts[i].id != id ==> r[i] == toasts[i]
  {
    if toasts == [] then []
    else
      var head := if toasts[0].id == id then ToastItem(toasts[0].id, MergeFields(toasts[0].fields, p))
                  else toasts[0];
      [head] + Updated(toasts[1..], id, p)
  }

  /** Closing keeps the order of what stays: the filter distributes over concatenation. */
  lemma {:induction false} ClosedConcat(a: seq<ToastItem>, b: seq<ToastItem>, id: string)
    ensures Closed(a + b, id) == Closed(a, id) + Closed(b, id)
  {
    if a == [] {
      assert a + b == b;
    } else {
      assert (a + b)[1..] == a[1..] + b;
      ClosedConcat(a[1..], b, id);
    }
  }

  /** Closing an id no toast carries leaves the list as it was. */
  lemma {:induction false} CloseUnknownId(toasts: seq<ToastItem>, id: string)
    requires forall i :: 0 <= i < |toasts| ==> toasts[i].id != id
    ensures Closed(toasts, id) == toasts
  {
    if toasts != [] {
      CloseUnknownId(toasts[1..], id);
    }
  }

  /** A toast that was just opened is removed by closing its id, and nothing else is. */
  lemma CloseUndoesOpen(toasts: seq<ToastItem>, id: string, props: ToastFields)
    requires forall i :: 0 <= i < |toasts| ==> toasts[i].id != id
    ensures Closed(Opened(toasts, id, props), id) == toasts
  {
    ClosedConcat(toasts, [ToastItem(id, props)], id);
    CloseUnknownId(toasts, id);
  }

  /** The module-level `let count = 0`, shared by every hook instance. */
  class Counter {
    var count: nat

    constructor ()
      ensures count == 0
    {
      count := 0;
    }
  }

  /** One `useToast()` instance: its `toasts` state and the shared counter. */
  class ToastHook {
    var toasts: seq<ToastItem>
    const counter: Counter

    constructor (counter: Counter)
      ensures toasts == [] && this.counter == counter
    {
      toasts := [];
      this.counter := counter;
    }

    /** `open`: the id is `String(count++)`, the toast is appended, the id returned. */
    method Open(props: ToastFields) returns (id: string)
      modifies this`toasts, counter
      ensures id == Text.Decimal(old(counter.count))
      ensures counter.count == old(counter.count) + 1
      ensures toasts == Opened(old(toasts), id, props)
    {
      id := Text.Decimal(counter.count);
      counter.count := counter.count + 1;
      toasts := Opened(toasts, id, props);
    }

    method Close(id: string)
      modifies this`toasts
      ensures toasts == Closed(old(toasts), id)
    {
      toasts := Closed(toasts, id);
    }

    method Update(id: string, p: ToastFields)
      modifies this`toasts
      ensures toasts == Updated(old(toasts), id, p)
    {
      toasts := Updated(toasts, id, p);
    }
  }

  /** Two successive `open` calls, on the same hook or on two hooks sharing the counter, return
      different ids. */
  method OpenTwice(first: ToastHook, second: ToastHook, p: ToastFields, q: ToastFields)
    returns (a: string, b: string)
    requires first.counter == second.counter
    modifies first, second, first.counter
    ensures a != b
  {
    a := first.Open(p);
    b := second.Open(q);
    Text.DecimalInjective(first.counter.count - 2, first.counter.count - 1);
  }

  /** The `toast` object and the `TOAST_FUNCTION` singleton it forwards to. */
  class ToastFacade {
    var target: ToastHook?

    constructor ()
      ensures target == null
    {
      target := null;
    }

    /** `setToastFunction`. */
    method SetToastFunction(hook: ToastHook?)
      modifies this`target
      ensures target == hook
    {
      target := hook;
    }

    /** `toast.open`: "" and no effect without a registered hook. */
    method Open(props: ToastFields) returns (id: string)
      modifies if target != null then {target, target.counter} else {}
      ensures target == null ==> id == ""
      ensures target != null ==>
        id == Text.Decimal(old(target.counter.count))
        && target.counter.count == old(target.counter.count) + 1
        && target.toasts == Opened(old(target.toasts), id, props)
    {
      if target == null {
        return "";
      }
      id := target.Open(props);
    }

    /** `toast.close`: no effect without a registered hook. */
    method Close(id: string)
      modifies if target != null then {target} else {}
      ensures target != null ==> target.toasts == Closed(old(target.toasts), id)
    {
      if target != null {
        target.Close(id);
      }
    }

    /** `toast.update`: no effect without a registered hook. */
    method Update(id: string, p: ToastFields)
      modifies if target != null then {target} else {}
      ensures target != null ==> target.toasts == Updated(old(target.toasts), id, p)
    {
      if target != null {
        target.Update(id, p);
      }
    }
  }
}
