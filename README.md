# AGImageControls core in Dafny

A verified model of the two stateful services of AGImageControls, a photo
capture and image-annotation toolkit:

- **The image editor service** (`AGImageEditorService`): the stack of image
  changes the editor pushes when an image view is edited, undoes by edit type
  and purges by image-view tag; the counter that hands out image-view tags
  from 101 upward; and the menu-state helpers (which menu item is hidden or
  selected, resetting the colour sliders). Module `ImageEditor` in
  `image_editor_service.dfy`.
- **The phone camera** (`AGPhoneCamera`): its decisions over an abstract
  capture session: the permission dispatch, the choice of the starting
  camera, switching between the front and back cameras inside one
  configuration transaction, the preset search over high, medium and low, and
  the guards around flash and focus changes. Module `Camera` in
  `phone_camera.dfy`.

`wrappers.dfy` holds the `Option` datatype that stands for Swift optionals.

## How the model is built

Both services are classes whose fields the methods update, as in the source.
The methods that change the change stack or the camera state are specified
by a function of the old state, and the properties are proved about those
functions. The three menu helpers (`ImageEditorItems`,
`UnselectAllImageEditorItems`, `ResetEditorColorItems`) write fields of the
menu and colour item objects; their contracts are statements over those
objects.

**Change records.** The definition of `AGImageChangesItem` is not part of
this model. A record is a `ChangeItem(kind, tag, snapshot)`: an edit type,
the tag of the image view it belongs to, and an opaque state to revert to.
Swift's `==` on records is the explicit relation `itemEquality`. The service
requires it to be an equivalence under which equal records carry equal
tags (`IsItemEquality`). The edit type is one abstract type `K`. The source
compares the stored type with a value of another enumeration
(`AGSettingMenuItemTypes`); the model treats both as `K`.

**Undo.** `undoLastChangesForType` finds the last record of the given type
and passes it to the delegate. It then removes the *first* record equal to
that record, which need not be the one it found. `UndoWithMatch` states both
indices and proves the removed one is never later than the found one.
`UndoRemovesFirstEqualNotLast` shows a stack `[a, b, a]` on which the
earlier copy is removed. `UndoRemovesLastUpToEquality` proves that, counted
up to record equality, what remains is the same as removing the last match.

**Remove by tag.** `removeImageItem` collects the records with the view's
tag, then removes, once per collected record, the first record equal to it.
`RemoveByTag` proves this leaves exactly the records with other tags, in
their original order. The proof counts records per equality class
(`RemoveEachClearsTag`).

**The camera platform.** The session, the devices and the photo library are
not part of this model. What the session and the devices accept is a
`Platform` value. Its fields are `canAddInput`, `canAddOutput`,
`supportsPreset`, `canSetPreset`, `isFlashModeSupported` and
`isFocusLockedSupported`. The session's inputs are a sequence; its first
element is `currentInput`. The following are method parameters: the
authorisation status, the user's answer to the permission prompt, the
devices that discovery finds, and whether `lockForConfiguration` succeeds.
Discovery always creates a new still-image output (AGPhoneCamera.swift line
60), so the found output is never missing in the source; `Devices.output` is
optional only because `start` guards it, and the model keeps that branch.
Work the source sends to its session queue or to the main queue runs in
program order. The event log `log` records these, in that order:

- delegate notifications;
- calls of the caller's completion block;
- `beginConfiguration`/`commitConfiguration` on the session;
- lock, change and unlock on a device.

**Details of the code the model keeps.**

- undo removes the first record equal to the last match, not the last match
  itself;
- a start on the back camera never falls back to the front camera; only a
  front-camera start falls back to the back camera;
- switching cameras reports `didChangeInput` only if the session accepts the
  new input, and calls the completion block in every case;
- the camera keeps no lifecycle state, and none is modelled.

## Model

| member | source | states |
|---|---|---|
| `ImageEditor.IsTextEditorAvailable` | AGImageControls/Classes/Services/AGImageEditorService.swift:89-94 | the text editor is available exactly for the caption and details editor types |
| `ImageEditor.CreateWith` | AGImageControls/Classes/Services/AGImageEditorService.swift:112 | a record made from an image view carries that view's tag and edit type |
| `ImageEditor.LastIndexOfKind` | AGImageControls/Classes/Services/AGImageEditorService.swift:116 | `filter { $0.type == type }.last`: the result is the highest index holding that type, or none exists |
| `ImageEditor.FirstIndexOf` | AGImageControls/Classes/Services/AGImageEditorService.swift:121 | `firstIndex(of:)`: the result is the lowest index holding an equal record, or none exists |
| `ImageEditor.RemoveAt` | AGImageControls/Classes/Services/AGImageEditorService.swift:122 | `remove(at:)`: one element fewer, those before the index unchanged, those after shifted down by one |
| `ImageEditor.TaggedWith` | AGImageControls/Classes/Services/AGImageEditorService.swift:130 | the filtered list holds exactly the records of the stack that carry the tag; with the records of other tags it accounts for the whole stack |
| `ImageEditor.WithoutTag` | AGImageControls/Classes/Services/AGImageEditorService.swift:126-136 | the records left: exactly those of the stack whose tag differs, never more of them |
| `ImageEditor.UndoNotice` | AGImageControls/Classes/Services/AGImageEditorService.swift:116-120 | the record passed to the delegate is a record of the stack with the given type; there is none exactly when no record has that type |
| `ImageEditor.UndoLast` | AGImageControls/Classes/Services/AGImageEditorService.swift:116-123 | undo removes at most one record and adds none; without a record of the type the stack is unchanged |
| `ImageEditor.RemoveEach` | AGImageControls/Classes/Services/AGImageEditorService.swift:131-135 | removing the first equal record once per list element removes at most as many records as the list holds, and adds none |
| `ImageEditor.UndoWithoutMatch` | AGImageControls/Classes/Services/AGImageEditorService.swift:115-119 | with no record of the type, the delegate is not called and the stack is unchanged |
| `ImageEditor.UndoWithMatch` | AGImageControls/Classes/Services/AGImageEditorService.swift:115-124 | with a record of the type, the delegate gets the last such record (index j); the stack loses exactly the first record equal to it (index i, with i <= j) and keeps the others in order |
| `ImageEditor.UndoRemovesLastUpToEquality` | AGImageControls/Classes/Services/AGImageEditorService.swift:116-123 | counted per equality class, the stack after undo equals the stack without its last match |
| `ImageEditor.UndoRemovesFirstEqualNotLast` | AGImageControls/Classes/Services/AGImageEditorService.swift:116-122 | on `[a, b, a]` with structural equality, undo reports the third record but leaves `[b, a]`, not `[a, b]` |
| `ImageEditor.RemoveEachClearsTag` | AGImageControls/Classes/Services/AGImageEditorService.swift:130-135 | removing the first equal record once per element of a list matching the tagged records class by class removes every tagged record and nothing else |
| `ImageEditor.RemoveByTag` | AGImageControls/Classes/Services/AGImageEditorService.swift:126-136 | filtering by tag and then removing each filtered record's first equal leaves exactly the records with other tags, in order |
| `ImageEditor.ImageEditorService.constructor` | AGImageControls/Classes/Services/AGImageEditorService.swift:68-87 | an empty change stack, a tag counter at 100, the caption editor current |
| `ImageEditor.ImageEditorService.NewImageViewTag` | AGImageControls/Classes/Services/AGImageEditorService.swift:70-77 | each read adds one to the counter and returns the new value, so the first read gives 101 and later reads strictly increase |
| `ImageEditor.ImageEditorService.ImageEditorItems` | AGImageControls/Classes/Services/AGImageEditorService.swift:79-85 | returns the menu list with item 1 hidden exactly when no text editor is available; only item 1 is written |
| `ImageEditor.ImageEditorService.UnselectAllImageEditorItems` | AGImageControls/Classes/Services/AGImageEditorService.swift:96-100 | afterwards no menu item is selected and no hidden flag changed |
| `ImageEditor.ImageEditorService.ResetEditorColorItems` | AGImageControls/Classes/Services/AGImageEditorService.swift:102-106 | afterwards every colour item's current value equals its unchanged maximum |
| `ImageEditor.ImageEditorService.AddNewImageItem` | AGImageControls/Classes/Services/AGImageEditorService.swift:108-113 | a nil view leaves the stack unchanged; a view appends exactly its record on top of the unchanged earlier records |
| `ImageEditor.ImageEditorService.UndoLastChangesForType` | AGImageControls/Classes/Services/AGImageEditorService.swift:115-124 | notifies the delegate of the last match (if any) while the stack still holds the old records (`stacksAtUndoNotice`), then leaves the stack as undo defines it: unchanged without a match, one shorter with one |
| `ImageEditor.ImageEditorService.RemoveImageItem` | AGImageControls/Classes/Services/AGImageEditorService.swift:126-136 | a nil view is a no-op; otherwise the stack becomes the old stack without the view's tag, in order |
| `Camera.PreferredPresets` | AGImageControls/Classes/Services/AGPhoneCamera.swift:241-247 | the presets are tried in the order high, medium, low |
| `Camera.CurrentInput` | AGImageControls/Classes/Services/AGPhoneCamera.swift:105-107 | the current input exists exactly when the session has an input, and is the first one |
| `Camera.FirstAcceptablePreset` | AGImageControls/Classes/Services/AGPhoneCamera.swift:233-238 | the loop's answer: the first preset the device supports and the session can set, with none acceptable before it, or none acceptable at all |
| `Camera.ConfiguredPreset` | AGImageControls/Classes/Services/AGPhoneCamera.swift:232-247 | the preset becomes high, else medium, else low, whichever is first acceptable; with none acceptable it is unchanged |
| `Camera.StartInput` | AGImageControls/Classes/Services/AGPhoneCamera.swift:113 | a front start takes the front camera, else the back one; a back start takes only the back camera |
| `Camera.SwitchTarget` | AGImageControls/Classes/Services/AGPhoneCamera.swift:142 | from the back camera the target is the front camera, otherwise the back camera; with two distinct cameras the target is never the current input |
| `Camera.Without` | AGImageControls/Classes/Services/AGPhoneCamera.swift:151 | `removeInput`: the remaining inputs are exactly the others |
| `Camera.AddInputStep` | AGImageControls/Classes/Services/AGPhoneCamera.swift:64-74 | the preset is configured first; the input is appended and `didChangeInput` emitted exactly when the session can add it, else inputs and log are unchanged; an existing current input stays current; nothing else changes |
| `Camera.StartStep` | AGImageControls/Classes/Services/AGPhoneCamera.swift:109-128 | the found devices become the camera's; without a chosen input or an output nothing is added and `cameraDidStart` is not emitted; otherwise the preset is configured for the chosen input, the input and the output are added if accepted and exactly one `cameraDidStart` ends the log |
| `Camera.RequestPermissionStep` | AGImageControls/Classes/Services/AGPhoneCamera.swift:91-101 | a granted request starts the camera; a denied one emits exactly one `cameraNotAvailable` |
| `Camera.CheckPermissionStep` | AGImageControls/Classes/Services/AGPhoneCamera.swift:78-89 | authorized starts, not-determined asks, any other status emits exactly one `cameraNotAvailable` and no start |
| `Camera.SwitchStep` | AGImageControls/Classes/Services/AGPhoneCamera.swift:134-159 | without a current input or a target only the completion runs; otherwise the current input is removed and the target added between one begin/commit pair, then the completion runs once; devices and outputs are unchanged |
| `Camera.LockStep` | AGImageControls/Classes/Services/AGPhoneCamera.swift:217-222 | the block runs only when there is a current input and locking it succeeds, and is followed by an unlock; otherwise nothing happens |
| `Camera.FlashStep` | AGImageControls/Classes/Services/AGPhoneCamera.swift:197-205 | no current input or an unsupported mode changes nothing; otherwise the mode is set under the lock |
| `Camera.FocusStep` | AGImageControls/Classes/Services/AGPhoneCamera.swift:207-214 | no current input or no locked-focus support changes nothing; otherwise the point is set under the lock |
| `Camera.SwitchTwiceRestores` | AGImageControls/Classes/Services/AGPhoneCamera.swift:134-159 | with two distinct cameras and one attached, a switch changes the current input and a second switch restores the inputs |
| `Camera.DeniedNeverStarts` | AGImageControls/Classes/Services/AGPhoneCamera.swift:78-101 | a denied, restricted or refused camera emits only `cameraNotAvailable` and attaches nothing |
| `Camera.PhoneCamera.constructor` | AGImageControls/Classes/Services/AGPhoneCamera.swift:20-29 | a camera with an empty session, no devices and a back-camera start |
| `Camera.PhoneCamera.Setup` | AGImageControls/Classes/Services/AGPhoneCamera.swift:36-39 | records the start preference, then behaves as the permission check |
| `Camera.PhoneCamera.SetupDevices` | AGImageControls/Classes/Services/AGPhoneCamera.swift:41-62 | the devices found become the front camera, back camera and output; nothing else changes |
| `Camera.PhoneCamera.AddInput` | AGImageControls/Classes/Services/AGPhoneCamera.swift:64-74 | behaves as `AddInputStep` |
| `Camera.PhoneCamera.CheckPermission` | AGImageControls/Classes/Services/AGPhoneCamera.swift:78-89 | behaves as `CheckPermissionStep` |
| `Camera.PhoneCamera.RequestPermission` | AGImageControls/Classes/Services/AGPhoneCamera.swift:91-101 | behaves as `RequestPermissionStep` |
| `Camera.PhoneCamera.Start` | AGImageControls/Classes/Services/AGPhoneCamera.swift:109-128 | behaves as `StartStep` |
| `Camera.PhoneCamera.SwitchCamera` | AGImageControls/Classes/Services/AGPhoneCamera.swift:134-159 | behaves as `SwitchStep`, with `configure` (lines 225-229) as the begin/commit pair |
| `Camera.PhoneCamera.Flash` | AGImageControls/Classes/Services/AGPhoneCamera.swift:197-205 | behaves as `FlashStep` |
| `Camera.PhoneCamera.Focus` | AGImageControls/Classes/Services/AGPhoneCamera.swift:207-214 | behaves as `FocusStep` |
| `Camera.PhoneCamera.Lock` | AGImageControls/Classes/Services/AGPhoneCamera.swift:217-222 | behaves as `LockStep` |
| `Camera.PhoneCamera.ConfigurePreset` | AGImageControls/Classes/Services/AGPhoneCamera.swift:232-239 | the loop with early return leaves the preset `ConfiguredPreset` gives |

## Left out

- The font, colour and main-menu catalogues (AGImageEditorService.swift lines 21-66) are constant data built with UIKit. The constructor receives the menu items and colour items as given objects. The font lists are used by no modelled operation.
- Colour values are `real`. `AGColorEditorItem` is not part of this model, and the values are only copied.
- `ImageEditor.ImageEditorService.NewImageViewTag`: does not model the trap of Swift's `Int` when the counter passes 2^63 - 1. The counter is unbounded.
- A nil `delegate` (a weak reference) or a nil completion block drops the notification or the call. The model always records it.
- `ImageEditor.ImageEditorService.UndoLastChangesForType`: re-entry is not modelled. The delegate may call back into `addNewImageItem`, `removeImageItem` or `undoLastChangesForType` while it handles `undoLastChanges`; the source's `if let index` guard (AGImageEditorService.swift line 121) covers a stack changed that way. In the model the delegate changes nothing, so the guard always succeeds and a match always makes the stack one record shorter.
- Threading: `queue.async` and `DispatchQueue.main.async` run in program order. In the source, `addInput` enqueues `didChangeInput` on the main queue before `commitConfiguration` runs on the session queue, and its delivery is not ordered against the commit. The model logs it where `addInput` enqueues it, between begin and commit.
- `Camera.PhoneCamera.SetupDevices`: device enumeration is not modelled. The devices found replace the three fields outright. The source keeps a field's earlier value when no device with that position is listed, which matters only if `start` runs twice.
- The block passed to `lock` is one of two device changes: set a flash mode or set a focus point. It applies to the current input. The source applies it to the device captured before the hop to the queue, which is the same device in program order.
- `takePhoto` and `savePhoto` (AGPhoneCamera.swift lines 161-195): image buffer decoding and photo-library writes through platform APIs.
- `stop`, `deinit` and `session.startRunning`: opaque hardware calls. No running flag is modelled.
- AGCameraViewController.swift and AGImageEditorMainMenuCollectionViewCell.swift are presentation code (views, animation, gestures, layout, screen geometry) and are not part of this model.
