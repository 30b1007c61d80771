/**
 * The training loop of the PyTorch adapters as a trace of calls. Network
 * outputs, losses and gradients are not modelled; what is modelled is which
 * call happens for which (epoch, batch) and in which order.
 */
module Training {

  /** One call made while training on one batch of one epoch. */
  datatype Event =
    | Forward(epoch: nat, batch: nat)     // y_pred = network(x)
    | ComputeLoss(epoch: nat, batch: nat) // loss = criterion(y_pred, y)
    | ZeroGrad(epoch: nat, batch: nat)    // optimizer.zero_grad()
    | Backward(epoch: nat, batch: nat)    // loss.backward()
    | Step(epoch: nat, batch: nat)        // optimizer.step()

  /** The calls made for batch `b` of epoch `e`, in order. */
  function BatchEvents(e: nat, b: nat): (r: seq<Event>)
    ensures |r| == 5
    ensures forall k :: 0 <= k < 5 ==> r[k].epoch == e && r[k].batch == b
  {
    [Forward(e, b), ComputeLoss(e, b), ZeroGrad(e, b), Backward(e, b), Step(e, b)]
  }

  /** The calls of one epoch over `nb` batches. */
  function EpochEvents(e: nat, nb: nat): (r: seq<Event>)
    ensures |r| == 5 * nb
  {
    if nb == 0 then [] else EpochEvents(e, nb - 1) + BatchEvents(e, nb - 1)
  }

  /** The calls of `ne` epochs over `nb` batches each. */
  function FitEvents(ne: nat, nb: nat): (r: seq<Event>)
    ensures |r| == ne * (5 * nb)
  {
    if ne == 0 then [] else FitEvents(ne - 1, nb) + EpochEvents(ne - 1, nb)
  }

  /** Call `k` of batch `b` in an epoch sits at position `5 * b + k`. */
  lemma {:induction false} EpochEventAt(e: nat, nb: nat, b: nat, k: nat)
    requires b < nb && k < 5
    ensures EpochEvents(e, nb)[5 * b + k] == BatchEvents(e, b)[k]
  {
    if b < nb - 1 {
      EpochEventAt(e, nb - 1, b, k);
    }
  }

  /**
   * Every epoch below `ne` and every batch below `nb` gets exactly its five
   * calls, in the order forward, loss, zero_grad, backward, step, and epochs
   * and batches follow each other in increasing order.
   */
  lemma {:induction false} FitEventAt(ne: nat, nb: nat, e: nat, b: nat, k: nat)
    requires e < ne && b < nb && k < 5
    ensures e * (5 * nb) + 5 * b + k < |FitEvents(ne, nb)|
    ensures FitEvents(ne, nb)[e * (5 * nb) + 5 * b + k] == BatchEvents(e, b)[k]
  {
    if e < ne - 1 {
      FitEventAt(ne - 1, nb, e, b, k);
    } else {
      EpochEventAt(e, nb, b, k);
    }
  }

  /** Within an epoch, each optimizer step comes right after the backward pass of its batch. */
  lemma {:induction false} EpochStepFollowsBackward(e: nat, nb: nat, i: nat)
    requires i < |EpochEvents(e, nb)| && EpochEvents(e, nb)[i].Step?
    ensures i > 0 && EpochEvents(e, nb)[i].epoch == e
    ensures EpochEvents(e, nb)[i - 1] == Backward(e, EpochEvents(e, nb)[i].batch)
  {
    var prev := EpochEvents(e, nb - 1);
    if i < |prev| {
      EpochStepFollowsBackward(e, nb - 1, i);
    } else {
      assert i - |prev| == 4;
    }
  }

  /** Each optimizer step comes right after the backward pass of the same batch and epoch. */
  lemma {:induction false} StepFollowsBackward(ne: nat, nb: nat, i: nat)
    requires i < |FitEvents(ne, nb)| && FitEvents(ne, nb)[i].Step?
    ensures i > 0 && FitEvents(ne, nb)[i - 1] == Backward(FitEvents(ne, nb)[i].epoch, FitEvents(ne, nb)[i].batch)
  {
    var prev := FitEvents(ne - 1, nb);
    if i < |prev| {
      StepFollowsBackward(ne - 1, nb, i);
    } else {
      EpochStepFollowsBackward(ne - 1, nb, i - |prev|);
    }
  }

  /** A loss recorded by the classifier's epoch loop: that of batch `batch` of epoch `epoch`. */
  datatype LossRef = LossRef(epoch: nat, batch: nat)
}
