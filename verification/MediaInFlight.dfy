/** The in-flight set of the media dispatcher. */
module MediaInFlight {

  class InFlight {
    var running: set<int>
    const concurrency: nat

    constructor (concurrency: nat)
      requires concurrency > 0
      ensures running == {} && this.concurrency == concurrency
    {
      running := {};
      this.concurrency := concurrency;
    }

    /** Takes a place for the action unless all are taken or it has one. */
    method Reserve(a: int) returns (ok: bool)
      modifies this
      ensures ok <==> |old(running)| < concurrency && a !in old(running)
      ensures running == if ok then old(running) + {a} else old(running)
      ensures |old(running)| <= concurrency ==> |running| <= concurrency
    {
      if |running| >= concurrency || a in running {
        return false;
      }
      running := running + {a};
      ok := true;
    }

    method Release(a: int)
      modifies this
      ensures running == old(running) - {a}
    {
      running := running - {a};
    }
  }
}
