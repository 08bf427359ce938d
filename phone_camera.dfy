/**
 * The phone camera's decision logic over an abstract capture session:
 * permission dispatch, the choice of the starting input, switching between
 * the front and back cameras inside one configuration transaction, the
 * preset search, and the guards around flash and focus changes.
 *
 * The platform (what the session and devices accept) is a value of type
 * Platform; the authorisation status, the user's answer to the permission
 * prompt, the devices found and whether a device lock succeeds are
 * parameters. Work the source dispatches to a queue or to the main thread
 * runs here in program order. Delegate notifications, completion calls and
 * the session and device calls the core makes are recorded in an event log.
 */
module Camera {
  import opened Wrappers

  /** An AVCaptureDeviceInput, compared by identity; it also stands for its device. */
  datatype DeviceInput = DeviceInput(id: nat)

  /** An AVCaptureStillImageOutput, compared by identity. */
  datatype StillImageOutput = StillImageOutput(id: nat)

  /** Session presets: the three the camera prefers, and all others. */
  datatype Preset = High | Medium | Low | OtherPreset(name: string)

  datatype AuthorizationStatus = Authorized | NotDetermined | Denied | Restricted

  datatype FlashMode = FlashOff | FlashOn | FlashAuto

  /** A focus point of interest; only stored, never computed with. */
  datatype Point = Point(x: real, y: real)

  /** What a block run under the device lock changes. */
  datatype DeviceChange = SetFlashMode(mode: FlashMode) | SetFocusPoint(point: Point)

  datatype Event =
    | CameraNotAvailable                        // delegate.cameraNotAvailable
    | CameraDidStart                            // delegate.cameraDidStart
    | DidChangeInput(input: DeviceInput)        // delegate.camera(_:didChangeInput:)
    | Completion                                // the caller's completion block
    | BeginConfiguration                        // session.beginConfiguration()
    | CommitConfiguration                       // session.commitConfiguration()
    | LockForConfiguration(device: DeviceInput) // a successful device.lockForConfiguration()
    | DeviceChanged(device: DeviceInput, change: DeviceChange)
    | UnlockForConfiguration(device: DeviceInput)

  /** The answers of the session and the devices, as functions of the session's inputs where they depend on them. */
  datatype Platform = Platform(
    canAddInput: (seq<DeviceInput>, DeviceInput) -> bool,
    canAddOutput: (seq<StillImageOutput>, StillImageOutput) -> bool,
    supportsPreset: (DeviceInput, Preset) -> bool,
    canSetPreset: (seq<DeviceInput>, Preset) -> bool,
    isFlashModeSupported: (DeviceInput, FlashMode) -> bool,
    isFocusLockedSupported: DeviceInput -> bool)

  /**
   * What device discovery (setupDevices) found. setupDevices always creates
   * a new still-image output, so in the source `output` is never None and
   * start's branch for a missing output is not reached; the model keeps the
   * branch because start guards it.
   */
  datatype Devices = Devices(front: Option<DeviceInput>, back: Option<DeviceInput>, output: Option<StillImageOutput>)

  /** The camera's fields and its session's inputs, outputs and preset, with the event log. */
  datatype CameraState = CameraState(
    inputs: seq<DeviceInput>,
    outputs: seq<StillImageOutput>,
    preset: Preset,
    backCamera: Option<DeviceInput>,
    frontCamera: Option<DeviceInput>,
    stillImageOutput: Option<StillImageOutput>,
    startOnFrontCamera: bool,
    log: seq<Event>)

  // ---------------------------------------------------------------------------
  // Pure choices

  /** preferredPresets(): the order in which configurePreset tries presets. */
  function PreferredPresets(): (r: seq<Preset>)
    ensures |r| == 3 && r[0] == High && r[1] == Medium && r[2] == Low
  {
    [High, Medium, Low]
  }

  /** currentInput: the session's first input, if any. */
  function CurrentInput(inputs: seq<DeviceInput>): (r: Option<DeviceInput>)
    ensures r.Some? <==> |inputs| > 0
    ensures r.Some? ==> r.value == inputs[0]
  {
    if |inputs| == 0 then None else Some(inputs[0])
  }

  /** A preset the device supports and the session can be set to. */
  predicate Acceptable(p: Platform, inputs: seq<DeviceInput>, input: DeviceInput, x: Preset)
  {
    p.supportsPreset(input, x) && p.canSetPreset(inputs, x)
  }

  /** The index of the first acceptable preset of `presets`. */
  function FirstAcceptablePreset(p: Platform, inputs: seq<DeviceInput>, input: DeviceInput, presets: seq<Preset>): (r: Option<nat>)
    ensures r.Some? ==> r.value < |presets| && Acceptable(p, inputs, input, presets[r.value])
    ensures r.Some? ==> forall j :: 0 <= j < r.value ==> !Acceptable(p, inputs, input, presets[j])
    ensures r.None? ==> forall j :: 0 <= j < |presets| ==> !Acceptable(p, inputs, input, presets[j])
  {
    if |presets| == 0 then None
    else if Acceptable(p, inputs, input, presets[0]) then Some(0)
    else
      match FirstAcceptablePreset(p, inputs, input, presets[1..])
      case None => None
      case Some(i) => Some(i + 1)
  }

  /** The session preset after configurePreset(input). */
  function ConfiguredPreset(p: Platform, inputs: seq<DeviceInput>, current: Preset, input: DeviceInput): (r: Preset)
    ensures Acceptable(p, inputs, input, High) ==> r == High
    ensures !Acceptable(p, inputs, input, High) && Acceptable(p, inputs, input, Medium) ==> r == Medium
    ensures (!Acceptable(p, inputs, input, High) && !Acceptable(p, inputs, input, Medium)
             && Acceptable(p, inputs, input, Low)) ==> r == Low
    ensures (!Acceptable(p, inputs, input, High) && !Acceptable(p, inputs, input, Medium)
             && !Acceptable(p, inputs, input, Low)) ==> r == current
  {
    var presets := PreferredPresets();
    match FirstAcceptablePreset(p, inputs, input, presets)
    case None =>
      assert !Acceptable(p, inputs, input, presets[0]);
      assert !Acceptable(p, inputs, input, presets[1]);
      assert !Acceptable(p, inputs, input, presets[2]);
      current
    case Some(i) =>
      assert i > 0 ==> !Acceptable(p, inputs, input, presets[0]);
      assert i > 1 ==> !Acceptable(p, inputs, input, presets[1]);
      presets[i]
  }

  /** The input start() attaches: front falls back to back, back never falls back to front. */
  function StartInput(startOnFrontCamera: bool, front: Option<DeviceInput>, back: Option<DeviceInput>): (r: Option<DeviceInput>)
    ensures r.Some? ==> r == front || r == back
    ensures !startOnFrontCamera ==> r == back
    ensures startOnFrontCamera && front.Some? ==> r == front
    ensures startOnFrontCamera && front.None? ==> r == back
  {
    if startOnFrontCamera then (if front.Some? then front else back) else back
  }

  /** The input switchCamera moves to: the front camera from the back camera, the back camera from anything else. */
  function SwitchTarget(current: DeviceInput, front: Option<DeviceInput>, back: Option<DeviceInput>): (r: Option<DeviceInput>)
    ensures r.Some? ==> r == front || r == back
    ensures Some(current) == back ==> r == front
    ensures Some(current) != back ==> r == back
    ensures front != back ==> r != Some(current)
  {
    if Some(current) == back then front else back
  }

  /** The inputs left after session.removeInput(x). */
  function Without(inputs: seq<DeviceInput>, x: DeviceInput): (r: seq<DeviceInput>)
    ensures |r| <= |inputs|
    ensures forall y :: y in r <==> y in inputs && y != x
  {
    if |inputs| == 0 then []
    else (if inputs[0] != x then [inputs[0]] else []) + Without(inputs[1..], x)
  }

  // ---------------------------------------------------------------------------
  // The operations as functions of the camera state

  /** addInput(input): configure the preset, then attach the input if the session accepts it. */
  function AddInputStep(p: Platform, c: CameraState, input: DeviceInput): (r: CameraState)
    ensures r.preset == ConfiguredPreset(p, c.inputs, c.preset, input)
    ensures p.canAddInput(c.inputs, input) ==>
              r.inputs == c.inputs + [input] && r.log == c.log + [DidChangeInput(input)]
    ensures !p.canAddInput(c.inputs, input) ==> r.inputs == c.inputs && r.log == c.log
    ensures |c.inputs| > 0 ==> CurrentInput(r.inputs) == CurrentInput(c.inputs)
    ensures r == c.(inputs := r.inputs, preset := r.preset, log := r.log)
  {
    var c1 := c.(preset := ConfiguredPreset(p, c.inputs, c.preset, input));
    if p.canAddInput(c.inputs, input) then
      c1.(inputs := c.inputs + [input], log := c.log + [DidChangeInput(input)])
    else c1
  }

  /**
   * start(): take the devices discovery found, pick the starting input and,
   * with an input and an output, attach both and report the start.
   */
  function StartStep(p: Platform, c: CameraState, found: Devices): (r: CameraState)
    ensures r.frontCamera == found.front && r.backCamera == found.back && r.stillImageOutput == found.output
    ensures r.startOnFrontCamera == c.startOnFrontCamera
    ensures StartInput(c.startOnFrontCamera, found.front, found.back).None? || found.output.None? ==>
              r.inputs == c.inputs && r.outputs == c.outputs && r.preset == c.preset && r.log == c.log
    ensures StartInput(c.startOnFrontCamera, found.front, found.back).Some? && found.output.Some? ==>
              var input := StartInput(c.startOnFrontCamera, found.front, found.back).value;
              var added := p.canAddInput(c.inputs, input);
              r.inputs == c.inputs + (if added then [input] else []) &&
              r.log == c.log + (if added then [DidChangeInput(input)] else []) + [CameraDidStart] &&
              r.preset == ConfiguredPreset(p, c.inputs, c.preset, input) &&
              r.outputs == c.outputs + (if p.canAddOutput(c.outputs, found.output.value) then [found.output.value] else [])
  {
    var c1 := c.(frontCamera := found.front, backCamera := found.back, stillImageOutput := found.output);
    match (StartInput(c1.startOnFrontCamera, c1.frontCamera, c1.backCamera), c1.stillImageOutput)
    case (Some(input), Some(output)) =>
      var c2 := AddInputStep(p, c1, input);
      var c3 := if p.canAddOutput(c2.outputs, output) then c2.(outputs := c2.outputs + [output]) else c2;
      c3.(log := c3.log + [CameraDidStart])
    case _ => c1
  }

  /** The callback of requestPermission: start when granted, report the camera unavailable otherwise. */
  function RequestPermissionStep(p: Platform, c: CameraState, granted: bool, found: Devices): (r: CameraState)
    ensures granted ==> r == StartStep(p, c, found)
    ensures !granted ==> r == c.(log := c.log + [CameraNotAvailable])
  {
    if granted then StartStep(p, c, found) else c.(log := c.log + [CameraNotAvailable])
  }

  /** checkPermission(): dispatch on the authorisation status. */
  function CheckPermissionStep(p: Platform, c: CameraState, status: AuthorizationStatus, granted: bool, found: Devices): (r: CameraState)
    ensures status == Authorized ==> r == StartStep(p, c, found)
    ensures status == NotDetermined ==> r == RequestPermissionStep(p, c, granted, found)
    ensures status == Denied || status == Restricted ==>
              r == c.(log := c.log + [CameraNotAvailable]) && CameraDidStart !in r.log[|c.log|..]
  {
    match status
    case Authorized => StartStep(p, c, found)
    case NotDetermined => RequestPermissionStep(p, c, granted, found)
    case _ => c.(log := c.log + [CameraNotAvailable])
  }

  /**
   * switchCamera(completion): with no current input or no camera to switch to,
   * only the completion runs; otherwise the current input is removed and the
   * target added between one begin/commit pair, and then the completion runs.
   */
  function SwitchStep(p: Platform, c: CameraState): (r: CameraState)
    ensures CurrentInput(c.inputs).None? ==> r == c.(log := c.log + [Completion])
    ensures CurrentInput(c.inputs).Some? && SwitchTarget(c.inputs[0], c.frontCamera, c.backCamera).None? ==>
              r == c.(log := c.log + [Completion])
    ensures CurrentInput(c.inputs).Some? && SwitchTarget(c.inputs[0], c.frontCamera, c.backCamera).Some? ==>
              var target := SwitchTarget(c.inputs[0], c.frontCamera, c.backCamera).value;
              var kept := Without(c.inputs, c.inputs[0]);
              var added := p.canAddInput(kept, target);
              r.inputs == kept + (if added then [target] else []) &&
              r.log == c.log + [BeginConfiguration] + (if added then [DidChangeInput(target)] else [])
                             + [CommitConfiguration, Completion] &&
              r.preset == ConfiguredPreset(p, kept, c.preset, target)
    ensures r.outputs == c.outputs && r.frontCamera == c.frontCamera && r.backCamera == c.backCamera
    ensures r.stillImageOutput == c.stillImageOutput && r.startOnFrontCamera == c.startOnFrontCamera
  {
    match CurrentInput(c.inputs)
    case None => c.(log := c.log + [Completion])
    case Some(current) =>
      match SwitchTarget(current, c.frontCamera, c.backCamera)
      case None => c.(log := c.log + [Completion])
      case Some(target) =>
        var c1 := c.(inputs := Without(c.inputs, current), log := c.log + [BeginConfiguration]);
        var c2 := AddInputStep(p, c1, target);
        c2.(log := c2.log + [CommitConfiguration, Completion])
  }

  /** lock(block): run the block on the current device only when locking it succeeds, then unlock. */
  function LockStep(c: CameraState, change: DeviceChange, lockSucceeds: bool): (r: CameraState)
    ensures CurrentInput(c.inputs).None? || !lockSucceeds ==> r == c
    ensures CurrentInput(c.inputs).Some? && lockSucceeds ==>
              r == c.(log := c.log + [LockForConfiguration(c.inputs[0]), DeviceChanged(c.inputs[0], change),
                                      UnlockForConfiguration(c.inputs[0])])
  {
    match CurrentInput(c.inputs)
    case None => c
    case Some(device) =>
      if lockSucceeds then
        c.(log := c.log + [LockForConfiguration(device), DeviceChanged(device, change), UnlockForConfiguration(device)])
      else c
  }

  /** flash(mode): nothing without a current input or when the mode is unsupported; otherwise set it under the lock. */
  function FlashStep(p: Platform, c: CameraState, mode: FlashMode, lockSucceeds: bool): (r: CameraState)
    ensures CurrentInput(c.inputs).None? ==> r == c
    ensures CurrentInput(c.inputs).Some? && !p.isFlashModeSupported(c.inputs[0], mode) ==> r == c
    ensures CurrentInput(c.inputs).Some? && p.isFlashModeSupported(c.inputs[0], mode) ==>
              r == LockStep(c, SetFlashMode(mode), lockSucceeds)
  {
    match CurrentInput(c.inputs)
    case None => c
    case Some(device) =>
      if p.isFlashModeSupported(device, mode) then LockStep(c, SetFlashMode(mode), lockSucceeds) else c
  }

  /** focus(point): nothing without a current input or without locked-focus support; otherwise set the point under the lock. */
  function FocusStep(p: Platform, c: CameraState, point: Point, lockSucceeds: bool): (r: CameraState)
    ensures CurrentInput(c.inputs).None? ==> r == c
    ensures CurrentInput(c.inputs).Some? && !p.isFocusLockedSupported(c.inputs[0]) ==> r == c
    ensures CurrentInput(c.inputs).Some? && p.isFocusLockedSupported(c.inputs[0]) ==>
              r == LockStep(c, SetFocusPoint(point), lockSucceeds)
  {
    match CurrentInput(c.inputs)
    case None => c
    case Some(device) =>
      if p.isFocusLockedSupported(device) then LockStep(c, SetFocusPoint(point), lockSucceeds) else c
  }

  // ---------------------------------------------------------------------------
  // Properties relating several operations

  /**
   * Switching twice from a session whose only input is one of two distinct
   * cameras comes back to that camera, when the session accepts each camera
   * once the other is removed.
   */
  lemma SwitchTwiceRestores(p: Platform, c: CameraState, front: DeviceInput, back: DeviceInput)
    requires c.frontCamera == Some(front) && c.backCamera == Some(back) && front != back
    requires c.inputs == [front] || c.inputs == [back]
    requires p.canAddInput([], front) && p.canAddInput([], back)
    ensures SwitchStep(p, SwitchStep(p, c)).inputs == c.inputs
    ensures CurrentInput(SwitchStep(p, c).inputs) != CurrentInput(c.inputs)
  {
  }

  /** A camera that is never authorised never reports a start, whatever it finds. */
  lemma DeniedNeverStarts(p: Platform, c: CameraState, status: AuthorizationStatus, granted: bool, found: Devices)
    requires status == Denied || status == Restricted || (status == NotDetermined && !granted)
    ensures CheckPermissionStep(p, c, status, granted, found).log == c.log + [CameraNotAvailable]
    ensures CheckPermissionStep(p, c, status, granted, found).inputs == c.inputs
  {
  }

  // ---------------------------------------------------------------------------
  // The camera object

  class PhoneCamera {
    const platform: Platform

    var inputs: seq<DeviceInput>
    var outputs: seq<StillImageOutput>
    var sessionPreset: Preset
    var backCamera: Option<DeviceInput>
    var frontCamera: Option<DeviceInput>
    var stillImageOutput: Option<StillImageOutput>
    var startOnFrontCamera: bool
    var log: seq<Event>

    ghost function State(): CameraState
      reads this
    {
      CameraState(inputs, outputs, sessionPreset, backCamera, frontCamera, stillImageOutput, startOnFrontCamera, log)
    }

    /** A camera with a fresh, empty session whose preset is `preset`. */
    constructor (p: Platform, preset: Preset)
      ensures platform == p
      ensures State() == CameraState([], [], preset, None, None, None, false, [])
    {
      platform := p;
      inputs, outputs, sessionPreset := [], [], preset;
      backCamera, frontCamera, stillImageOutput := None, None, None;
      startOnFrontCamera := false;
      log := [];
    }

    /** setup(startOnFrontCamera): remember the preference and check permission. */
    method Setup(onFront: bool, status: AuthorizationStatus, granted: bool, found: Devices)
      modifies this
      ensures State() == CheckPermissionStep(platform, old(State()).(startOnFrontCamera := onFront), status, granted, found)
    {
      startOnFrontCamera := onFront;
      CheckPermission(status, granted, found);
    }

    /** setupDevices(): the devices found become the camera's devices. */
    method SetupDevices(found: Devices)
      modifies this
      ensures State() == old(State()).(frontCamera := found.front, backCamera := found.back, stillImageOutput := found.output)
    {
      frontCamera := found.front;
      backCamera := found.back;
      stillImageOutput := found.output;
    }

    method AddInput(input: DeviceInput)
      modifies this
      ensures State() == AddInputStep(platform, old(State()), input)
    {
      ConfigurePreset(input);
      if platform.canAddInput(inputs, input) {
        inputs := inputs + [input];
        log := log + [DidChangeInput(input)];
      }
    }

    method CheckPermission(status: AuthorizationStatus, granted: bool, found: Devices)
      modifies this
      ensures State() == CheckPermissionStep(platform, old(State()), status, granted, found)
    {
      match status
      case Authorized => Start(found);
      case NotDetermined => RequestPermission(granted, found);
      case _ => log := log + [CameraNotAvailable];
    }

    method RequestPermission(granted: bool, found: Devices)
      modifies this
      ensures State() == RequestPermissionStep(platform, old(State()), granted, found)
    {
      if granted {
        Start(found);
      } else {
        log := log + [CameraNotAvailable];
      }
    }

    method Start(found: Devices)
      modifies this
      ensures State() == StartStep(platform, old(State()), found)
    {
      SetupDevices(found);
      var choice := StartInput(startOnFrontCamera, frontCamera, backCamera);
      if choice.None? || stillImageOutput.None? {
        return;
      }
      var output := stillImageOutput.value;
      AddInput(choice.value);
      if platform.canAddOutput(outputs, output) {
        outputs := outputs + [output];
      }
      log := log + [CameraDidStart];
    }

    method SwitchCamera()
      modifies this
      ensures State() == SwitchStep(platform, old(State()))
    {
      var currentInput := CurrentInput(inputs);
      if currentInput.None? {
        log := log + [Completion];
        return;
      }
      var input := SwitchTarget(currentInput.value, frontCamera, backCamera);
      if input.None? {
        log := log + [Completion];
        return;
      }
      log := log + [BeginConfiguration];
      inputs := Without(inputs, currentInput.value);
      AddInput(input.value);
      log := log + [CommitConfiguration];
      log := log + [Completion];
    }

    method Flash(mode: FlashMode, lockSucceeds: bool)
      modifies this
      ensures State() == FlashStep(platform, old(State()), mode, lockSucceeds)
    {
      var currentInput := CurrentInput(inputs);
      if currentInput.None? || !platform.isFlashModeSupported(currentInput.value, mode) {
        return;
      }
      Lock(SetFlashMode(mode), lockSucceeds);
    }

    method Focus(point: Point, lockSucceeds: bool)
      modifies this
      ensures State() == FocusStep(platform, old(State()), point, lockSucceeds)
    {
      var currentInput := CurrentInput(inputs);
      if currentInput.None? || !platform.isFocusLockedSupported(currentInput.value) {
        return;
      }
      Lock(SetFocusPoint(point), lockSucceeds);
    }

    method Lock(change: DeviceChange, lockSucceeds: bool)
      modifies this
      ensures State() == LockStep(old(State()), change, lockSucceeds)
    {
      var currentInput := CurrentInput(inputs);
      if currentInput.Some? && lockSucceeds {
        var device := currentInput.value;
        log := log + [LockForConfiguration(device)];
        log := log + [DeviceChanged(device, change)];
        log := log + [UnlockForConfiguration(device)];
      }
    }

    /** configurePreset(input): the first of the preferred presets that is acceptable, if any, becomes the session preset. */
    method ConfigurePreset(input: DeviceInput)
      modifies this`sessionPreset
      ensures sessionPreset == ConfiguredPreset(platform, inputs, old(sessionPreset), input)
    {
      var presets := PreferredPresets();
      for n := 0 to |presets|
        invariant forall j :: 0 <= j < n ==> !Acceptable(platform, inputs, input, presets[j])
        invariant sessionPreset == old(sessionPreset)
      {
        if platform.supportsPreset(input, presets[n]) && platform.canSetPreset(inputs, presets[n]) {
          sessionPreset := presets[n];
          return;
        }
      }
    }
  }
}
