/** The write capability handed to a machine step. */
module EffectsBuffer {

  import opened Basics

  /** A single-output consumer's reading of a buffer: the number of emissions on a fault. */
  function One<Out>(outbox: seq<Out>): (r: Result<Option<Out>, nat>)
    ensures r.Err? <==> |outbox| > 1
    ensures r.Err? ==> r.error == |outbox|
    ensures r.Ok? ==> outbox == if r.value.Some? then [r.value.value] else []
  {
    match |outbox|
    case 0 => Ok(None)
    case 1 => Ok(Some(outbox[0]))
    case emitted => Err(emitted)
  }

  class Effects<Out> {
    var outbox: seq<Out>

    constructor ()
      ensures outbox == []
    {
      outbox := [];
    }

    method Emit(value: Out)
      modifies this
      ensures outbox == old(outbox) + [value]
    {
      outbox := outbox + [value];
    }

    predicate IsEmpty()
      reads this
    {
      |outbox| == 0
    }

    /** Drains everything, in emission order. */
    method Take() returns (vs: seq<Out>)
      modifies this
      ensures vs == old(outbox) && IsEmpty()
    {
      vs := outbox;
      outbox := [];
    }

    /** Drains at most one value. More than one is a fault, and the buffer is emptied all the same. */
    method TakeOne() returns (r: Result<Option<Out>, nat>)
      modifies this
      ensures IsEmpty()
      ensures r.Err? <==> |old(outbox)| > 1
      ensures r.Err? ==> r.error == |old(outbox)|
      ensures r.Ok? ==> old(outbox) == if r.value.Some? then [r.value.value] else []
    {
      var v := outbox;
      outbox := [];
      if |v| == 0 {
        r := Ok(None);
      } else if |v| == 1 {
        r := Ok(Some(v[|v| - 1]));
      } else {
        r := Err(|v|);
      }
    }
  }
}
