/**
 * The worker pool of asyncreq.c as an object whose fields the locked
 * sections update in place.  Each method is one locked section (or the AIO
 * branch, which takes no lock) and is proved to perform the transition of
 * AsyncReqSpec with the same name.
 */
module AsyncReq {
  import opened Wrappers
  import opened AsyncReqSpec

  class WorkerPool {
    /** `wtlist`: the idle workers, head first. */
    var free: seq<nat>
    /** `wt->req` of every worker created so far, indexed by creation order. */
    var slots: seq<Option<Request>>
    /** The `done` events posted so far, in order. */
    var done: seq<Request>
    /** The requests the AIO library has accepted and not yet completed. */
    ghost var aio: seq<Request>
    /** The ENABLE_AIO build setting. */
    const aioEnabled: bool

    ghost function State(): State
      reads this
    {
      AsyncReqSpec.State(free, slots, aio, done)
    }

    ghost predicate Valid()
      reads this
    {
      Inv(State())
    }

    /** ini_asyncreq: an empty free list and no workers. */
    constructor (aioEnabled: bool)
      ensures Valid() && State() == Init() && this.aioEnabled == aioEnabled
    {
      free := [];
      slots := [];
      done := [];
      aio := [];
      this.aioEnabled := aioEnabled;
    }

    /**
     * async_req_post.  Seek-read and seek-write go to the AIO library when
     * it is compiled in; every other request is handed to the head of the
     * free list, or to a new worker when the list is empty.
     */
    method Post(r: Request, inp: PostInputs)
      requires Valid()
      modifies this
      ensures Valid()
      ensures State() == AsyncReqSpec.Post(old(State()), aioEnabled, r, inp)
    {
      if aioEnabled && (r.kind == SeekRead || r.kind == SeekWrite) {
        if inp.aioInit < 0 {
          var failed := r.(rval := -1);
          failed := failed.(error := inp.errno);
          done := done + [failed];
        } else {
          aio := aio + [r];
        }
        return;
      }
      if free == [] {
        if inp.createError == 0 {
          slots := slots + [Some(r)];
        } else {
          var failed := r.(error := inp.createError);
          done := done + [failed];
        }
      } else {
        var w := free[0];
        free := free[1..];
        slots := slots[w := Some(r)];
      }
    }

    /**
     * One pass of worker `w`'s loop: run its request (the call's return
     * value and errno are inputs), then, under the lock, post `done`, clear
     * the slot and rejoin the free list at its tail.
     */
    method WorkerIteration(w: nat, ret: int, errno: int)
      requires Valid() && Busy(State(), w)
      requires ret == -1 ==> errno != 0
      modifies this
      ensures Valid()
      ensures State() == Complete(old(State()), w, ret, errno)
    {
      var req := slots[w].value;
      req := req.(error := 0);
      if req.kind.Unrecognised? {
        req := req.(error := ENOSYS);
      } else {
        req := req.(rval := ret);
        if req.rval == -1 {
          req := req.(error := errno);
        }
      }
      done := done + [req];
      slots := slots[w := None];
      free := free + [w];
    }

    /**
     * aio_done, called back with the request `r`, which is the k-th one the
     * AIO library holds.
     */
    method AioDone(ghost k: nat, r: Request, ret: int, aioErr: int)
      requires Valid() && k < |aio| && aio[k] == r
      modifies this
      ensures Valid()
      ensures State() == AioComplete(old(State()), k, ret, aioErr)
    {
      var req := r.(rval := ret);
      if req.rval < 0 {
        req := req.(error := aioErr);
      }
      done := done + [req];
      aio := aio[..k] + aio[k + 1..];
    }
  }
}
