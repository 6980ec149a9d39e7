/** The public API: every `audio_object_*` call tests its object for NULL and
    otherwise forwards to the object's own operation table, and
    `create_audio_device_object` returns the first backend constructor that
    yields an object.  A backend's private state is the type parameter `S`; an
    operation that updates the object in place returns its new state. */
module Audio {
  import opened Native
  import opened Formats

  /** The seven entries of `struct audio_object`. */
  datatype Vtable<!S> = Vtable(
    open: (S, Format, Uint32, Uint8) -> (S, int),
    close: S -> S,
    destroy: S -> S,
    write: (S, seq<byte>) -> (S, int),
    drain: S -> (S, int),
    flush: S -> (S, int),
    strerror: (S, int) -> CStr)

  /** A backend object: its operation table and its private state. */
  datatype AudioObject<!S> = AudioObject(vtable: Vtable<S>, state: S)

  /** A possibly NULL `struct audio_object *`. */
  type Handle<!S> = Option<AudioObject<S>>

  function ObjectOpen<S>(obj: Handle<S>, format: Format, rate: Uint32, channels: Uint8): (r: (Handle<S>, int))
    ensures obj.None? ==> r == (None, 0)
    ensures obj.Some? ==>
      var o := obj.value;
      var (s, err) := o.vtable.open(o.state, format, rate, channels);
      r.0 == Some(o.(state := s)) && r.1 == err
  {
    match obj
    case None => (None, 0)
    case Some(o) =>
      var (s, err) := o.vtable.open(o.state, format, rate, channels);
      (Some(o.(state := s)), err)
  }

  function ObjectClose<S>(obj: Handle<S>): (r: Handle<S>)
    ensures obj.None? ==> r.None?
    ensures obj.Some? ==> r == Some(obj.value.(state := obj.value.vtable.close(obj.value.state)))
  {
    match obj
    case None => None
    case Some(o) => Some(o.(state := o.vtable.close(o.state)))
  }

  function ObjectDestroy<S>(obj: Handle<S>): (r: Handle<S>)
    ensures obj.None? ==> r.None?
    ensures obj.Some? ==> r == Some(obj.value.(state := obj.value.vtable.destroy(obj.value.state)))
  {
    match obj
    case None => None
    case Some(o) => Some(o.(state := o.vtable.destroy(o.state)))
  }

  function ObjectWrite<S>(obj: Handle<S>, data: seq<byte>): (r: (Handle<S>, int))
    ensures obj.None? ==> r == (None, 0)
    ensures obj.Some? ==>
      var o := obj.value;
      var (s, err) := o.vtable.write(o.state, data);
      r.0 == Some(o.(state := s)) && r.1 == err
  {
    match obj
    case None => (None, 0)
    case Some(o) =>
      var (s, err) := o.vtable.write(o.state, data);
      (Some(o.(state := s)), err)
  }

  function ObjectDrain<S>(obj: Handle<S>): (r: (Handle<S>, int))
    ensures obj.None? ==> r == (None, 0)
    ensures obj.Some? ==>
      var o := obj.value;
      var (s, err) := o.vtable.drain(o.state);
      r.0 == Some(o.(state := s)) && r.1 == err
  {
    match obj
    case None => (None, 0)
    case Some(o) =>
      var (s, err) := o.vtable.drain(o.state);
      (Some(o.(state := s)), err)
  }

  function ObjectFlush<S>(obj: Handle<S>): (r: (Handle<S>, int))
    ensures obj.None? ==> r == (None, 0)
    ensures obj.Some? ==>
      var o := obj.value;
      var (s, err) := o.vtable.flush(o.state);
      r.0 == Some(o.(state := s)) && r.1 == err
  {
    match obj
    case None => (None, 0)
    case Some(o) =>
      var (s, err) := o.vtable.flush(o.state);
      (Some(o.(state := s)), err)
  }

  function ObjectStrerror<S>(obj: Handle<S>, error: int): (r: CStr)
    ensures obj.None? ==> r.None?
    ensures obj.Some? ==> r == obj.value.vtable.strerror(obj.value.state, error)
  {
    match obj
    case None => None
    case Some(o) => o.vtable.strerror(o.state, error)
  }

  /** The backend constructors the dispatcher knows, in the order it tries them. */
  datatype Backend = PulseAudio | Alsa | Qsa | Oss

  const Priority: seq<Backend> := [PulseAudio, Alsa, Qsa, Oss]

  /** A backend constructor: given the backend and the three construction
      strings, the object it returns (None for NULL). */
  type Constructor<!S> = (Backend, CStr, CStr, CStr) -> Handle<S>

  /** `create_audio_device_object`: the object, and the constructors that were
      invoked, in the order they were invoked. */
  function CreateAudioDeviceObject<S>(device: CStr, applicationName: CStr, description: CStr,
                                      create: Constructor<S>): (r: (Handle<S>, seq<Backend>))
    ensures 1 <= |r.1| <= |Priority| && r.1 == Priority[..|r.1|]
    ensures forall i :: 0 <= i < |r.1| - 1 ==> create(r.1[i], device, applicationName, description).None?
    ensures r.0 == create(r.1[|r.1| - 1], device, applicationName, description)
    ensures r.0.None? ==> r.1 == Priority
  {
    var pulse := create(PulseAudio, device, applicationName, description);
    if pulse.Some? then (pulse, [PulseAudio]) else
    var alsa := create(Alsa, device, applicationName, description);
    if alsa.Some? then (alsa, [PulseAudio, Alsa]) else
    var qsa := create(Qsa, device, applicationName, description);
    if qsa.Some? then (qsa, [PulseAudio, Alsa, Qsa]) else
    var oss := create(Oss, device, applicationName, description);
    (oss, Priority)
  }

  /** Reference definition: the first non-NULL object among the constructors
      `candidates`, tried left to right. */
  function FirstObject<S>(candidates: seq<Backend>, device: CStr, applicationName: CStr, description: CStr,
                          create: Constructor<S>): Handle<S>
  {
    if candidates == [] then None
    else
      var o := create(candidates[0], device, applicationName, description);
      if o.Some? then o else FirstObject(candidates[1..], device, applicationName, description, create)
  }

  /** The dispatcher returns the first object in priority order, and NULL when
      every constructor returns NULL. */
  lemma CreateIsFirstInPriority<S>(device: CStr, applicationName: CStr, description: CStr, create: Constructor<S>)
    ensures var (o, invoked) := CreateAudioDeviceObject(device, applicationName, description, create);
      o == FirstObject(Priority, device, applicationName, description, create)
  {
    var l1, l2, l3 := [Alsa, Qsa, Oss], [Qsa, Oss], [Oss];
    assert Priority[1..] == l1 && l1[1..] == l2 && l2[1..] == l3 && l3[1..] == [];
    assert FirstObject(l3, device, applicationName, description, create) == create(Oss, device, applicationName, description);
    assert FirstObject(l2, device, applicationName, description, create)
        == (var q := create(Qsa, device, applicationName, description);
            if q.Some? then q else create(Oss, device, applicationName, description));
  }

  /** Every public call on the object the dispatcher returned goes to the
      operation of the backend whose constructor produced it. */
  lemma CallsRouteToChosenBackend<S>(device: CStr, applicationName: CStr, description: CStr,
                                     create: Constructor<S>, data: seq<byte>)
    requires CreateAudioDeviceObject(device, applicationName, description, create).0.Some?
    ensures var (o, invoked) := CreateAudioDeviceObject(device, applicationName, description, create);
      var chosen := create(invoked[|invoked| - 1], device, applicationName, description).value;
      && ObjectWrite(o, data).1 == chosen.vtable.write(chosen.state, data).1
      && ObjectDrain(o).1 == chosen.vtable.drain(chosen.state).1
      && ObjectFlush(o).1 == chosen.vtable.flush(chosen.state).1
      && ObjectClose(o) == Some(chosen.(state := chosen.vtable.close(chosen.state)))
  {
  }

  /** With constructors that fail, fail and succeed in priority order, the
      object is the third one's and the fourth constructor is never invoked. */
  lemma FallbackToThirdBackend<S>(device: CStr, applicationName: CStr, description: CStr, create: Constructor<S>)
    requires create(PulseAudio, device, applicationName, description).None?
    requires create(Alsa, device, applicationName, description).None?
    requires create(Qsa, device, applicationName, description).Some?
    ensures var (o, invoked) := CreateAudioDeviceObject(device, applicationName, description, create);
      o == create(Qsa, device, applicationName, description) && invoked == [PulseAudio, Alsa, Qsa] && Oss !in invoked
  {
  }
}
