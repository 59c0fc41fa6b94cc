// The ego vehicle of code/ego_vehicle.py: the single-instance guard of its
// constructor, the four sensor queues it creates, and the consumer side of
// frame synchronisation (drain each queue up to the record of the current
// frame). The simulator's actors, and the threads that fill the queues, are
// outside the model; a queue is the snapshot of what it holds.
module EgoVehicles {

  /** Where a queue's records come from, in the order create_queue registers them. */
  datatype Source = WorldTick | RgbCamera | SemanticCamera | GnssSensor

  /** A record put on a sensor queue: the frame it was produced at and an opaque payload. */
  datatype SensorData = SensorData(frame: int, payload: int)

  datatype Location = Location(x: real, y: real, z: real)

  /** One element of the list get_sync_data returns: sensor records, then the location. */
  datatype Reading = Data(data: SensorData) | Where(location: Location)

  datatype Error = AlreadyExists | SpawnFailed

  datatype Result<T> = Success(value: T) | Failure(error: Error)

  ghost predicate HasFrame(items: seq<SensorData>, frame: int)
  {
    exists j :: 0 <= j < |items| && items[j].frame == frame
  }

  /** Index of the first record of `frame`: the one a blocking drain stops at. */
  function FirstMatch(items: seq<SensorData>, frame: int): (i: nat)
    requires HasFrame(items, frame)
    ensures i < |items| && items[i].frame == frame
    ensures forall j :: 0 <= j < i ==> items[j].frame != frame
  {
    if items[0].frame == frame then 0
    else
      assert HasFrame(items[1..], frame) by {
        var j :| 0 <= j < |items| && items[j].frame == frame;
        assert j > 0 && items[1..][j - 1].frame == frame;
      }
      1 + FirstMatch(items[1..], frame)
  }

  /** Records put on a queue after the match do not change which record is retrieved. */
  lemma {:induction false} FirstMatchOfAppend(items: seq<SensorData>, more: seq<SensorData>, frame: int)
    requires HasFrame(items, frame)
    ensures HasFrame(items + more, frame)
    ensures FirstMatch(items + more, frame) == FirstMatch(items, frame)
  {
    var i := FirstMatch(items, frame);
    assert (items + more)[i] == items[i];
    if items[0].frame != frame {
      assert (items + more)[1..] == items[1..] + more;
      FirstMatchOfAppend(items[1..], more, frame);
    }
  }

  /** A queue.Queue seen from the consumer: the records it holds, oldest first. */
  class SensorQueue {
    const source: Source
    var items: seq<SensorData>

    constructor(source: Source)
      ensures this.source == source && items == []
    {
      this.source := source;
      items := [];
    }

    /** The registered callback: a producer appends a record. */
    method Put(d: SensorData)
      modifies this
      ensures items == old(items) + [d]
    {
      items := items + [d];
    }

    /** queue.get on a non-empty queue: removes and returns the oldest record. */
    method Get() returns (d: SensorData)
      requires |items| > 0
      modifies this
      ensures d == old(items)[0] && items == old(items)[1..]
    {
      d := items[0];
      items := items[1..];
    }
  }

  class EgoVehicle {
    var frame: int
    var queues: seq<SensorQueue>

    /** The queues are distinct objects, so draining one leaves the others alone. */
    ghost predicate Valid()
      reads this
    {
      forall i, j :: 0 <= i < j < |queues| ==> queues[i] != queues[j]
    }

    /** The part of __init__ after a successful spawn: no queue yet. The
        current frame is first set by CreateQueue. */
    constructor()
      ensures queues == [] && Valid()
    {
      queues := [];
    }

    method MakeQueue(source: Source) returns (q: SensorQueue)
      requires Valid()
      modifies this
      ensures fresh(q) && q.source == source && q.items == []
      ensures frame == old(frame) && queues == old(queues) + [q] && Valid()
    {
      q := new SensorQueue(source);
      queues := queues + [q];
    }

    /**
     * create_queue: the frame the synchronous settings took effect at becomes
     * the current frame, then one queue per source is appended in the order
     * world tick, RGB camera, semantic camera, GNSS.
     */
    method CreateQueue(settingsFrame: int) returns (self: EgoVehicle)
      requires Valid()
      modifies this
      ensures self == this && frame == settingsFrame && Valid()
      ensures |queues| == |old(queues)| + 4 && queues[..|old(queues)|] == old(queues)
      ensures queues[|old(queues)|].source == WorldTick
      ensures queues[|old(queues)| + 1].source == RgbCamera
      ensures queues[|old(queues)| + 2].source == SemanticCamera
      ensures queues[|old(queues)| + 3].source == GnssSensor
      ensures forall i :: |old(queues)| <= i < |queues| ==> fresh(queues[i]) && queues[i].items == []
    {
      frame := settingsFrame;
      var q0 := MakeQueue(WorldTick);
      var q1 := MakeQueue(RgbCamera);
      var q2 := MakeQueue(SemanticCamera);
      var q3 := MakeQueue(GnssSensor);
      self := this;
    }

    /**
     * _retrieve_data: take records off the front of the queue until one of
     * the current frame comes out, and return it. Without such a record the
     * source blocks forever, hence the precondition.
     */
    method RetrieveData(q: SensorQueue) returns (data: SensorData)
      requires HasFrame(q.items, frame)
      modifies q
      ensures data == old(q.items)[FirstMatch(old(q.items), frame)]
      ensures q.items == old(q.items)[FirstMatch(old(q.items), frame) + 1..]
    {
      ghost var all := q.items;
      ghost var m := FirstMatch(all, frame);
      ghost var taken := 0;
      while true
        invariant 0 <= taken <= m && q.items == all[taken..]
        decreases |q.items|
      {
        data := q.Get();
        taken := taken + 1;
        if data.frame == frame {
          return;
        }
      }
    }

    /**
     * get_sync_data: set the current frame, retrieve one record per queue in
     * creation order (each of that frame), and append the vehicle location,
     * which the simulator supplies.
     */
    method GetSyncData(f: int, location: Location) returns (data: seq<Reading>)
      requires Valid()
      requires forall i :: 0 <= i < |queues| ==> HasFrame(queues[i].items, f)
      modifies this, queues
      ensures frame == f && queues == old(queues) && Valid()
      ensures |data| == |queues| + 1 && data[|queues|] == Where(location)
      ensures forall i :: 0 <= i < |queues| ==>
        data[i] == Data(old(queues[i].items)[FirstMatch(old(queues[i].items), f)])
      ensures forall i :: 0 <= i < |queues| ==>
        queues[i].items == old(queues[i].items)[FirstMatch(old(queues[i].items), f) + 1..]
      ensures forall i :: 0 <= i < |queues| ==> data[i].Data? && data[i].data.frame == f
    {
      frame := f;
      data := [];
      var i := 0;
      while i < |queues|
        invariant 0 <= i <= |queues| && |data| == i
        invariant frame == f && queues == old(queues)
        invariant forall j :: 0 <= j < i ==>
          data[j] == Data(old(queues[j].items)[FirstMatch(old(queues[j].items), f)])
        invariant forall j :: 0 <= j < i ==>
          queues[j].items == old(queues[j].items)[FirstMatch(old(queues[j].items), f) + 1..]
        invariant forall j :: i <= j < |queues| ==> queues[j].items == old(queues[j].items)
      {
        var d := RetrieveData(queues[i]);
        data := data + [Data(d)];
        i := i + 1;
      }
      assert forall j :: 0 <= j < |data| ==> data[j].data.frame == frame;
      data := data + [Where(location)];
    }
  }

  /** The class variable EgoVehicle.instance. */
  class Registry {
    var instance: EgoVehicle?

    constructor()
      ensures instance == null
    {
      instance := null;
    }

    /**
     * EgoVehicle(...): refuse when an ego vehicle is registered, then fail
     * when the simulator could not spawn the car (`spawned`), and only then
     * register the new vehicle.
     */
    method NewEgoVehicle(spawned: bool) returns (r: Result<EgoVehicle>)
      modifies this
      ensures old(instance) != null ==> r == Failure(AlreadyExists) && instance == old(instance)
      ensures old(instance) == null && !spawned ==> r == Failure(SpawnFailed) && instance == null
      ensures old(instance) == null && spawned ==>
        r.Success? && fresh(r.value) && instance == r.value && r.value.queues == [] && r.value.Valid()
    {
      if instance != null {
        return Failure(AlreadyExists);
      }
      if !spawned {
        return Failure(SpawnFailed);
      }
      var ego := new EgoVehicle();
      instance := ego;
      r := Success(ego);
    }
  }
}
