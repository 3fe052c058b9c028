/**
 * The object the `DTMF` factory of dtmf.js returns, and the closure state
 * behind it: the `Tones` table that `buildTones` rewrites in place, the
 * `pList` stack that `exec` drains one `setSinkId` at a time, the init
 * promise and the selected output device.
 *
 * The browser's asynchronous answers are events: `EnumerationFailed` and
 * `OnEnumDevices` for `getUserMedia`/`enumerateDevices`, `OnSinkIdSettled`
 * for the `setSinkId` promise of the key being bound. The audio element's
 * `setup()` is recorded as the key joining `setUp`, and `element.play()` as
 * the key being appended to `played`.
 */
module Player {
  import opened Wrappers
  import opened Devices
  import opened Tones
  import Config

  /** A `Tones[k]` value: the bare frequency pair of the literal, or the object `buildTones` puts in its place. */
  datatype Entry = Bare(freq: Pair) | Built(frequency: Pair, deviceId: Option<string>)

  /** A `pList` element: bind the element of `key` to the device `dev`. */
  datatype BindJob = BindJob(key: string, dev: string)

  /**
   * Where the init lifecycle stands: not started, waiting for the device
   * list, waiting for the `setSinkId` of one job, or settled.
   */
  datatype Phase = Idle | Enumerating | Binding(job: BindJob) | Resolved | Rejected(reason: string)

  /** The jobs `buildTones` pushes for `keys`, in push order. */
  function Jobs(keys: seq<string>, dev: string): (r: seq<BindJob>)
    ensures |r| == |keys|
    ensures forall i :: 0 <= i < |keys| ==> r[i] == BindJob(keys[i], dev)
  {
    seq(|keys|, i requires 0 <= i < |keys| => BindJob(keys[i], dev))
  }

  /** The table before `buildTones`: every key still holds its frequency pair. */
  function InitialTones(): (t: map<string, Entry>)
    ensures t.Keys == KeySet()
    ensures forall k :: k in t ==> t[k] == Bare(Table()[k])
  {
    map k | k in Table() :: Bare(Table()[k])
  }

  /** The table after `buildTones(deviceId)`: every key holds its pair, an element and the device id. */
  function BuiltTones(deviceId: Option<string>): (t: map<string, Entry>)
    ensures t.Keys == KeySet()
    ensures forall k :: k in t ==> t[k] == Built(Table()[k], deviceId)
  {
    map k | k in Table() :: Built(Table()[k], deviceId)
  }

  /** The keys after position n of the for-in order: those already bound while job n is pending. */
  function KeysAfter(n: int): set<string>
  {
    set i | 0 <= i < |KeyOrder| && n < i :: KeyOrder[i]
  }

  /** The keys of `keys`, as a set. */
  function KeysOf(keys: seq<string>): set<string>
  {
    set k | k in keys
  }

  /** Every key of `keys` mapped to the sink id `dev`. */
  function SinkMap(keys: set<string>, dev: string): map<string, string>
  {
    map k | k in keys :: dev
  }

  /** The id `buildTones` receives: the selected device's, or `undefined`. */
  function DeviceIdOf(d: Option<Device>): Option<string>
  {
    if d.Some? then Some(d.value.deviceId) else None
  }

  /** `buildTones(deviceId)` binds through `setSinkId` rather than setting up at once. */
  predicate BindsTo(useDefaultDevice: bool, deviceId: Option<string>)
  {
    deviceId.Some? && !useDefaultDevice
  }

  /**
   * The state while the `setSinkId` of `job` is pending: job n of the for-in
   * order, with jobs 0 to n - 1 still on the stack and exactly the keys
   * after n set up and bound to the device.
   */
  ghost predicate BindingState(useDefaultDevice: bool, outputDevice: Option<Device>, tones: map<string, Entry>,
                               pList: seq<BindJob>, job: BindJob, setUp: set<string>, sinkIds: map<string, string>)
  {
    var n := |pList|;
    && !useDefaultDevice && outputDevice.Some? && outputDevice.value.deviceId == job.dev
    && tones == BuiltTones(Some(job.dev))
    && n < |KeyOrder| && pList == Jobs(KeyOrder[..n], job.dev) && job.key == KeyOrder[n]
    && setUp == KeysAfter(n) && sinkIds == SinkMap(setUp, job.dev)
  }

  /**
   * The state once the init promise has resolved: every key built and set
   * up, the stack empty, and every element bound to the device exactly when
   * binding was asked for.
   */
  ghost predicate ResolvedState(useDefaultDevice: bool, outputDevice: Option<Device>, tones: map<string, Entry>,
                                pList: seq<BindJob>, setUp: set<string>, sinkIds: map<string, string>)
  {
    && tones == BuiltTones(DeviceIdOf(outputDevice))
    && setUp == KeySet() && pList == []
    && sinkIds == (if BindsTo(useDefaultDevice, DeviceIdOf(outputDevice))
                   then SinkMap(KeySet(), outputDevice.value.deviceId) else map[])
  }

  /**
   * A successful bind with jobs left on the stack: the job's key joins the
   * set-up and bound keys, and the popped job is the next one of the order,
   * one position earlier.
   */
  lemma BindNext(useDefaultDevice: bool, outputDevice: Option<Device>, tones: map<string, Entry>,
                 pList: seq<BindJob>, job: BindJob, setUp: set<string>, sinkIds: map<string, string>)
    requires BindingState(useDefaultDevice, outputDevice, tones, pList, job, setUp, sinkIds)
    requires pList != []
    ensures var n := |pList|;
      BindingState(useDefaultDevice, outputDevice, tones, pList[..n - 1], pList[n - 1],
                   setUp + {job.key}, sinkIds[job.key := job.dev])
  {
    var n := |pList|;
    KeysAfterStep(n);
    assert KeyOrder[..n][..n - 1] == KeyOrder[..n - 1];
  }

  /** A successful bind of the last job on the stack leaves every key set up and bound: the resolved state. */
  lemma BindLast(useDefaultDevice: bool, outputDevice: Option<Device>, tones: map<string, Entry>,
                 pList: seq<BindJob>, job: BindJob, setUp: set<string>, sinkIds: map<string, string>)
    requires BindingState(useDefaultDevice, outputDevice, tones, pList, job, setUp, sinkIds)
    requires pList == []
    ensures ResolvedState(useDefaultDevice, outputDevice, tones, pList, setUp + {job.key}, sinkIds[job.key := job.dev])
  {
    KeysAfterStep(0);
    KeysAfterEnds();
  }

  /**
   * `buildTones` for a device that binds ends in the binding state of the
   * last key of the for-in order, with the other eleven jobs on the stack.
   */
  lemma BuildBinding(useDefaultDevice: bool, outputDevice: Option<Device>)
    requires BindsTo(useDefaultDevice, DeviceIdOf(outputDevice))
    ensures var dev := outputDevice.value.deviceId;
      var n := |KeyOrder| - 1;
      var jobs := Jobs(KeyOrder, dev);
      BindingState(useDefaultDevice, outputDevice, BuiltTones(Some(dev)), jobs[..n], jobs[n], {}, map[])
  {
    var dev := outputDevice.value.deviceId;
    var n := |KeyOrder| - 1;
    assert Jobs(KeyOrder, dev)[..n] == Jobs(KeyOrder[..n], dev);
    KeysAfterEnds();
  }

  /** `buildTones` without binding sets every key up and resolves with nothing bound. */
  lemma BuildResolved(useDefaultDevice: bool, outputDevice: Option<Device>)
    requires !BindsTo(useDefaultDevice, DeviceIdOf(outputDevice))
    ensures ResolvedState(useDefaultDevice, outputDevice, BuiltTones(DeviceIdOf(outputDevice)), [], KeySet(), map[])
  {
  }

  /** Every key set up in a binding state was bound to the device first, and no other key was bound. */
  lemma BindingSetUpBound(useDefaultDevice: bool, outputDevice: Option<Device>, tones: map<string, Entry>,
                          pList: seq<BindJob>, job: BindJob, setUp: set<string>, sinkIds: map<string, string>)
    requires BindingState(useDefaultDevice, outputDevice, tones, pList, job, setUp, sinkIds)
    ensures sinkIds.Keys == setUp && job.key !in setUp
    ensures forall k :: k in sinkIds ==> sinkIds[k] == job.dev
  {
    KeyOrderDistinct();
  }

  /**
   * The table part-way through the for-in loop of `buildTones`: the first
   * i keys of the for-in order are built, the others still bare.
   */
  function PartlyBuilt(i: int, deviceId: Option<string>): (t: map<string, Entry>)
    requires 0 <= i <= |KeyOrder|
    ensures t.Keys == KeySet()
  {
    map k | k in Table() :: if k in KeyOrder[..i] then Built(Table()[k], deviceId) else Bare(Table()[k])
  }

  /** The loop starts from the initial table. */
  lemma PartlyBuiltStart(deviceId: Option<string>)
    ensures PartlyBuilt(0, deviceId) == InitialTones()
  {
    var t := PartlyBuilt(0, deviceId);
    forall k | k in t ensures t[k] == InitialTones()[k] {
      assert k !in KeyOrder[..0];
    }
  }

  /** The loop ends with the built table. */
  lemma PartlyBuiltEnd(deviceId: Option<string>)
    ensures PartlyBuilt(|KeyOrder|, deviceId) == BuiltTones(deviceId)
  {
    TableKeys();
    var t := PartlyBuilt(|KeyOrder|, deviceId);
    assert KeyOrder[..|KeyOrder|] == KeyOrder;
    forall k | k in t ensures t[k] == BuiltTones(deviceId)[k] {
      assert k in KeyOrder[..|KeyOrder|];
    }
  }

  /** Step i of the loop finds key i still bare and builds it and nothing else. */
  lemma PartlyBuiltStep(i: int, deviceId: Option<string>)
    requires 0 <= i < |KeyOrder|
    ensures KeyOrder[i] in PartlyBuilt(i, deviceId)
    ensures PartlyBuilt(i, deviceId)[KeyOrder[i]] == Bare(Table()[KeyOrder[i]])
    ensures PartlyBuilt(i + 1, deviceId) ==
              PartlyBuilt(i, deviceId)[KeyOrder[i] := Built(PartlyBuilt(i, deviceId)[KeyOrder[i]].freq, deviceId)]
  {
    var k := KeyOrder[i];
    var t := PartlyBuilt(i, deviceId);
    var u := PartlyBuilt(i + 1, deviceId);
    TableKeys();
    assert k in Table();
    assert k !in KeyOrder[..i] by {
      KeyOrderDistinct();
    }
    assert KeyOrder[..i + 1] == KeyOrder[..i] + [k];
    var v := t[k := Built(t[k].freq, deviceId)];
    forall x | x in u ensures x in v && u[x] == v[x] {
      if x != k {
        assert x in KeyOrder[..i + 1] <==> x in KeyOrder[..i];
      }
    }
    assert u.Keys == v.Keys;
  }

  /** Step i of the loop pushes the job of key i. */
  lemma JobsStep(i: int, dev: string)
    requires 0 <= i < |KeyOrder|
    ensures Jobs(KeyOrder[..i + 1], dev) == Jobs(KeyOrder[..i], dev) + [BindJob(KeyOrder[i], dev)]
  {
  }

  /** Step i of the loop sets up key i. */
  lemma KeysOfStep(i: int)
    requires 0 <= i < |KeyOrder|
    ensures KeysOf(KeyOrder[..i + 1]) == KeysOf(KeyOrder[..i]) + {KeyOrder[i]}
  {
    assert KeyOrder[..i + 1] == KeyOrder[..i] + [KeyOrder[i]];
  }

  /** Binding job n completes the keys after n - 1. */
  lemma KeysAfterStep(n: int)
    requires 0 <= n < |KeyOrder|
    ensures KeysAfter(n - 1) == KeysAfter(n) + {KeyOrder[n]}
  {
    forall k | k in KeysAfter(n - 1) ensures k in KeysAfter(n) + {KeyOrder[n]} {
      var i :| n - 1 < i < |KeyOrder| && 0 <= i && KeyOrder[i] == k;
      if i > n {
        assert k in KeysAfter(n);
      }
    }
  }

  /** Every key is after position -1, and none is after the last position. */
  lemma KeysAfterEnds()
    ensures KeysAfter(-1) == KeySet()
    ensures KeysAfter(|KeyOrder| - 1) == {}
  {
    TableKeys();
    forall k | k in KeySet() ensures k in KeysAfter(-1) {
      var i :| 0 <= i < |KeyOrder| && KeyOrder[i] == k;
    }
  }

  /** The keys visited by the whole for-in loop are the table's keys. */
  lemma AllKeysVisited()
    ensures KeysOf(KeyOrder[..|KeyOrder|]) == KeySet()
  {
    TableKeys();
    assert KeyOrder[..|KeyOrder|] == KeyOrder;
  }

  /**
   * Binding pops the stack from the end: with the twelve jobs pushed, the
   * keys are bound in the order "#", "*", "9", ..., "0".
   */
  lemma BindOrder(dev: string)
    ensures var jobs := Jobs(KeyOrder, dev);
      forall m :: 0 <= m < |jobs| ==> jobs[|jobs| - 1 - m].key == ["#", "*", "9", "8", "7", "6", "5", "4", "3", "2", "1", "0"][m]
  {
  }

  class Dtmf {
    /** The constants derived from the options. */
    const settings: Config.Settings
    /** `Tones`. */
    var tones: map<string, Entry>
    /** `onInitResolve` has been set: `init` has run once. */
    var initStarted: bool
    /** The state of the init promise and the step it waits for. */
    var phase: Phase
    /** `outputDevice`. */
    var outputDevice: Option<Device>
    /** `pList`: the jobs not yet handed to `setSinkId`. */
    var pList: seq<BindJob>
    /** The sink id each key's element was bound to by a successful `setSinkId`. */
    var sinkIds: map<string, string>
    /** The keys whose element `setup()` has run. */
    var setUp: set<string>
    /** The keys whose element `play()` was called, in call order. */
    var played: seq<string>

    /**
     * The lifecycle invariant: nothing is built before the device list
     * arrives, the binding and resolved states hold in their phases, and in
     * every phase the keys set up by a binding run are exactly the keys bound.
     */
    ghost predicate Valid()
      reads this`initStarted, this`phase, this`tones, this`outputDevice, this`pList, this`setUp, this`sinkIds
    {
      && (initStarted <==> !phase.Idle?)
      && tones.Keys == KeySet()
      && (phase.Idle? ==> outputDevice.None?)
      && (phase.Idle? || phase.Enumerating? ==>
            tones == InitialTones() && setUp == {} && sinkIds == map[] && pList == [])
      && (phase.Binding? ==>
            BindingState(settings.useDefaultDevice, outputDevice, tones, pList, phase.job, setUp, sinkIds))
      && (phase.Resolved? ==>
            ResolvedState(settings.useDefaultDevice, outputDevice, tones, pList, setUp, sinkIds))
      && (sinkIds == map[] || sinkIds.Keys == setUp)
    }

    /** The factory body once `setSinkId` is known to exist. */
    constructor(opt: Option<Config.Options>)
      ensures settings == Config.Configure(opt)
      ensures phase == Idle && tones == InitialTones() && outputDevice.None?
      ensures setUp == {} && sinkIds == map[] && pList == [] && played == []
      ensures Valid()
    {
      settings := Config.Configure(opt);
      tones := InitialTones();
      initStarted := false;
      phase := Idle;
      outputDevice := None;
      pList := [];
      sinkIds := map[];
      setUp := {};
      played := [];
    }

    /** `get device()`. */
    function CurrentDevice(): Option<Device>
      reads this
    {
      outputDevice
    }

    /** `get id()`. */
    function Id(): int
    {
      settings.instanceId
    }

    /**
     * `init()`: the first call starts the lifecycle and returns the promise
     * (`started`); any later call returns `undefined` and changes nothing.
     */
    method Init() returns (started: bool)
      requires Valid()
      modifies this
      ensures Valid()
      ensures started <==> !old(initStarted)
      ensures started ==> phase == Enumerating && initStarted
      ensures started ==> unchanged(this`tones, this`setUp, this`sinkIds, this`pList, this`outputDevice, this`played)
      ensures !started ==> unchanged(this)
    {
      if initStarted {
        return false;
      }
      initStarted := true;
      phase := Enumerating;
      return true;
    }

    /** `getUserMedia` or `enumerateDevices` failed: the promise rejects with "init failed:" and the error. */
    method EnumerationFailed(err: string)
      requires Valid() && phase.Enumerating?
      modifies this`phase
      ensures Valid()
      ensures phase == Rejected("init failed:" + err)
    {
      phase := Rejected("init failed:" + err);
    }

    /**
     * `onEnumDevices(list)`: select the device; when that throws, the promise
     * rejects with "init failed:" and the message and nothing else changes;
     * otherwise remember the device and build the tones for its id.
     */
    method OnEnumDevices(list: seq<Device>)
      requires Valid() && phase.Enumerating?
      modifies this
      ensures Valid()
      ensures played == old(played) && initStarted
      ensures var sel := SelectDevice(list, settings.deviceNameMask, settings.useDefaultDevice);
        && (sel.Err? ==> phase == Rejected("init failed:" + sel.error) && tones == old(tones)
                         && outputDevice == old(outputDevice) && setUp == {} && pList == [])
        && (sel.Ok? ==> outputDevice == sel.value && tones == BuiltTones(DeviceIdOf(sel.value)))
        && (sel.Ok? && BindsTo(settings.useDefaultDevice, DeviceIdOf(sel.value)) ==>
              phase == Binding(BindJob(KeyOrder[|KeyOrder| - 1], sel.value.value.deviceId)) && setUp == {})
        && (sel.Ok? && !BindsTo(settings.useDefaultDevice, DeviceIdOf(sel.value)) ==>
              phase == Resolved && setUp == KeySet() && sinkIds == map[])
    {
      var sel := SelectDevice(list, settings.deviceNameMask, settings.useDefaultDevice);
      if sel.Err? {
        phase := Rejected("init failed:" + sel.error);
        return;
      }
      outputDevice := sel.value;
      BuildTones(DeviceIdOf(sel.value));
    }

    /**
     * `buildTones(deviceId)`: build every entry and push or set up its key
     * (`BuildEntries`). With nothing pushed the promise resolves; otherwise
     * the last job is popped and executed.
     */
    method BuildTones(deviceId: Option<string>)
      requires Valid() && phase.Enumerating?
      requires deviceId == DeviceIdOf(outputDevice)
      modifies this`tones, this`pList, this`setUp, this`phase
      ensures Valid()
      ensures tones == BuiltTones(deviceId)
      ensures BindsTo(settings.useDefaultDevice, deviceId) ==>
                && phase == Binding(BindJob(KeyOrder[|KeyOrder| - 1], deviceId.value))
                && pList == Jobs(KeyOrder[..|KeyOrder| - 1], deviceId.value)
                && setUp == {}
      ensures !BindsTo(settings.useDefaultDevice, deviceId) ==> phase == Resolved && pList == [] && setUp == KeySet()
    {
      BuildEntries(deviceId);
      if |pList| < 1 {
        BuildResolved(settings.useDefaultDevice, outputDevice);
        phase := Resolved;
        return;
      }
      BuildBinding(settings.useDefaultDevice, outputDevice);
      var p := Pop();
      Exec(p);
    }

    /**
     * The for-in loop of `buildTones`: visit the keys in for-in order,
     * replace each entry by its built object, and either push a bind job (a
     * device id and the default device not requested) or set the element up
     * at once. An internal step of `BuildTones`, run while the devices are
     * being enumerated.
     */
    method BuildEntries(deviceId: Option<string>)
      requires phase.Enumerating?
      requires tones == InitialTones() && pList == [] && setUp == {}
      modifies this`tones, this`pList, this`setUp
      ensures tones == BuiltTones(deviceId)
      ensures BindsTo(settings.useDefaultDevice, deviceId) ==> pList == Jobs(KeyOrder, deviceId.value) && setUp == {}
      ensures !BindsTo(settings.useDefaultDevice, deviceId) ==> pList == [] && setUp == KeySet()
    {
      var binds := deviceId.Some? && !settings.useDefaultDevice;
      PartlyBuiltStart(deviceId);
      var i := 0;
      while i < |KeyOrder|
        invariant 0 <= i <= |KeyOrder|
        invariant tones == PartlyBuilt(i, deviceId)
        invariant binds ==> pList == Jobs(KeyOrder[..i], deviceId.value) && setUp == {}
        invariant !binds ==> pList == [] && setUp == KeysOf(KeyOrder[..i])
      {
        var k := KeyOrder[i];
        PartlyBuiltStep(i, deviceId);
        var freq := tones[k].freq;
        tones := tones[k := Built(freq, deviceId)];
        if binds {
          JobsStep(i, deviceId.value);
          pList := pList + [BindJob(k, deviceId.value)];
        } else {
          KeysOfStep(i);
          setUp := setUp + {k};
        }
        i := i + 1;
      }
      PartlyBuiltEnd(deviceId);
      assert KeyOrder[..i] == KeyOrder;
      AllKeysVisited();
    }

    /**
     * `pList.pop()`: the last job, or `undefined` when the stack is empty.
     * An internal step of `BuildTones` and `OnSinkIdSettled`.
     */
    method Pop() returns (p: Option<BindJob>)
      requires phase.Enumerating? || phase.Binding?
      modifies this`pList
      ensures old(pList) == [] ==> p.None? && pList == []
      ensures old(pList) != [] ==> p == Some(old(pList)[|old(pList)| - 1]) && pList == old(pList)[..|old(pList)| - 1]
    {
      if pList == [] {
        return None;
      }
      p := Some(pList[|pList| - 1]);
      pList := pList[..|pList| - 1];
    }

    /**
     * `exec(p)`: no job resolves the promise; a job asks `setSinkId` to bind
     * its element and waits. An internal step of `BuildTones` and
     * `OnSinkIdSettled`, the only places that run it.
     */
    method Exec(p: Option<BindJob>)
      requires phase.Enumerating? || phase.Binding?
      modifies this`phase
      ensures p.None? ==> phase == Resolved
      ensures p.Some? ==> phase == Binding(p.value)
    {
      if p.None? {
        phase := Resolved;
      } else {
        phase := Binding(p.value);
      }
    }

    /**
     * The `setSinkId` promise of the pending job settled. On success the
     * element is bound, `setup()` runs and the next job is popped and
     * executed (resolving when there is none). On failure the promise
     * rejects naming the key, no further job runs, and nothing already set
     * up is undone.
     */
    method OnSinkIdSettled(ok: bool, err: string)
      requires Valid() && phase.Binding?
      modifies this`phase, this`pList, this`setUp, this`sinkIds
      ensures Valid()
      ensures var job := old(phase).job;
        && (ok ==> setUp == old(setUp) + {job.key} && sinkIds == old(sinkIds)[job.key := job.dev])
        && (ok && old(pList) == [] ==> phase == Resolved && pList == [] && setUp == KeySet())
        && (ok && old(pList) != [] ==> phase == Binding(old(pList)[|old(pList)| - 1])
                                       && pList == old(pList)[..|old(pList)| - 1])
        && (!ok ==> phase == Rejected("setSinkId failed (" + job.key + "): " + err)
                    && setUp == old(setUp) && sinkIds == old(sinkIds) && pList == old(pList))
    {
      var job := phase.job;
      if !ok {
        phase := Rejected("setSinkId failed (" + job.key + "): " + err);
        return;
      }
      var n := |pList|;
      BindingSetUpBound(settings.useDefaultDevice, outputDevice, tones, pList, job, setUp, sinkIds);
      if n > 0 {
        BindNext(settings.useDefaultDevice, outputDevice, tones, pList, job, setUp, sinkIds);
      } else {
        BindLast(settings.useDefaultDevice, outputDevice, tones, pList, job, setUp, sinkIds);
      }
      sinkIds := sinkIds[job.key := job.dev];
      setUp := setUp + {job.key};
      var next := Pop();
      Exec(next);
    }

    /**
     * `play(toneKey)`: false, with no playback, for a key that is not in the
     * table or whose entry has no element yet; otherwise the element plays
     * once and the result is true.
     */
    method Play(toneKey: string) returns (ok: bool)
      requires Valid()
      modifies this`played
      ensures Valid()
      ensures ok <==> toneKey in tones && tones[toneKey].Built?
      ensures played == old(played) + (if ok then [toneKey] else [])
      ensures phase.Idle? || phase.Enumerating? ==> !ok
      ensures phase.Binding? || phase.Resolved? ==> (ok <==> toneKey in KeySet())
    {
      if toneKey !in tones {
        return false;
      }
      if tones[toneKey].Bare? {
        return false;
      }
      played := played + [toneKey];
      return true;
    }
  }

  /** The factory: `null` when the audio element has no `setSinkId`, else a new player that has not started. */
  method NewDtmf(opt: Option<Config.Options>, sinkIdSupported: bool) returns (d: Dtmf?)
    ensures d == null <==> !sinkIdSupported
    ensures d != null ==> fresh(d) && d.Valid() && d.phase == Idle && d.settings == Config.Configure(opt)
                          && d.tones == InitialTones() && d.played == []
  {
    if !sinkIdSupported {
      return null;
    }
    d := new Dtmf(opt);
  }
}
