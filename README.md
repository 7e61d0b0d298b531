# Sample text option and sizer properties, in Dafny

This project models two small stateful pieces of a XAML control toolkit.

1. **`ToolkitSampleTextOptionMetadataViewModel`** describes the text input of a
   sample in the gallery app. It has an immutable `Name`, a value slot
   (`_value`, read and written as the typed `PlaceholderText` and as the untyped
   `Value`), and a nullable `Title`. Every setter raises `PropertyChanged`.
2. **`SizerBase`** is the resize gripper. It has the dependency properties
   `Cursor`, `DragIncrement`, `KeyboardIncrement` and `Orientation`, and a
   private `_cursorToUse`. Its one rule is the orientation-changed callback:
   it recomputes `_cursorToUse` from the orientation (Vertical gives
   SizeWestEast, Horizontal gives SizeNorthSouth). On UWP it then writes that
   cursor into `Cursor`.

Each component has two modules:

- a value-level module with one function per constructor, getter and setter
  (`TextOptionSpec`, `SizerSpec`). It also has a `Run` function that applies a
  sequence of calls, and the lemmas about single calls and about every
  sequence of calls;
- a class module (`TextOptionViewModel`, `SizerControl`) whose methods update
  fields in place. Each method's `ensures` ties the new state, read through
  `Model()`, to the matching function of the old state.

How the framework is reduced to plain state:

- a delivered notification is the property name its event arguments carry,
  appended to a ghost `log`;
- the delegates attached to `PropertyChanged` are a multiset of handler ids.
  `+=` adds one occurrence. `-=` removes one occurrence and does nothing if
  the handler is absent;
- an object handed to the untyped `Value` slot is `Null`, `Str(s)` or
  `NonString`. A failing `(string)` cast is the `InvalidCast` outcome, which
  leaves the state unchanged;
- dependency properties are plain fields holding their registered defaults.
  The orientation callback runs when a set changes the stored orientation,
  and not when the same value is written again;
- only the UWP branch of the callback is modelled.

Two behaviours of the code are easy to miss:

- a `Value` set raises two notifications, one from the nested
  `PlaceholderText` setter and one of its own. Both carry the option's
  `Name`, not a property name. Only `Title` notifies with its own property
  name;
- on UWP, a real orientation change overwrites a cursor set earlier with the
  orientation's cursor. This holds even though the `Cursor` doc comment
  (labs/SizerBase/src/SizerBase.Properties.cs:28) says the control manages
  the cursor only when it is left null. A cursor set afterwards stays until
  the next real orientation change.

## Model

| member | source | states |
|---|---|---|
| TextOptionSpec.Create | common/CommunityToolkit.Labs.Core.SourceGenerators/Metadata/ToolkitSampleTextOptionMetadataViewModel.cs:24-29 | the new option stores `name`, `title` (default null) and `placeholderText` (default "") as a string, has no handler and has delivered nothing |
| TextOptionSpec.Notify | common/CommunityToolkit.Labs.Core.SourceGenerators/Metadata/ToolkitSampleTextOptionMetadataViewModel.cs:54-78 | a notification reaches the log exactly when a handler is attached, and nothing but the log changes |
| TextOptionSpec.PlaceholderText | common/CommunityToolkit.Labs.Core.SourceGenerators/Metadata/ToolkitSampleTextOptionMetadataViewModel.cs:50 | the getter returns exactly the string held in the value slot |
| TextOptionSpec.SetPlaceholderText | common/CommunityToolkit.Labs.Core.SourceGenerators/Metadata/ToolkitSampleTextOptionMetadataViewModel.cs:48-55 | afterwards `PlaceholderText` reads `s`; name, title and handlers are unchanged; exactly one notification carrying `Name` is delivered when a handler is attached, and none otherwise |
| TextOptionSpec.CastToString | common/CommunityToolkit.Labs.Core.SourceGenerators/Metadata/ToolkitSampleTextOptionMetadataViewModel.cs:64 | null becomes "", a string stays itself, and the cast fails exactly for a non-string object |
| TextOptionSpec.SetValue | common/CommunityToolkit.Labs.Core.SourceGenerators/Metadata/ToolkitSampleTextOptionMetadataViewModel.cs:62-66 | fails exactly for a non-string object; otherwise stores "" for null or the string itself, keeps name, title and handlers, and delivers exactly two notifications, both carrying `Name` |
| TextOptionSpec.GetValue | common/CommunityToolkit.Labs.Core.SourceGenerators/Metadata/ToolkitSampleTextOptionMetadataViewModel.cs:61 | the untyped `Value` is a string equal to `PlaceholderText` |
| TextOptionSpec.SetTitle | common/CommunityToolkit.Labs.Core.SourceGenerators/Metadata/ToolkitSampleTextOptionMetadataViewModel.cs:72-80 | stores the title, leaves the value slot, name and handlers untouched, and delivers one notification named "Title" when a handler is attached |
| TextOptionSpec.AddHandler | common/CommunityToolkit.Labs.Core.SourceGenerators/Metadata/ToolkitSampleTextOptionMetadataViewModel.cs:32 | the handler multiset gains exactly one occurrence of `h`, all other attachments stay, and nothing else changes |
| TextOptionSpec.RemoveHandler | common/CommunityToolkit.Labs.Core.SourceGenerators/Metadata/ToolkitSampleTextOptionMetadataViewModel.cs:32 | the handler multiset loses exactly one occurrence of `h`, all other attachments stay, nothing else changes, and detaching an absent handler changes nothing |
| TextOptionSpec.HandlerInverses | common/CommunityToolkit.Labs.Core.SourceGenerators/Metadata/ToolkitSampleTextOptionMetadataViewModel.cs:32 | detaching undoes attaching, and attaching undoes a detach that found its handler |
| TextOptionSpec.ValueRoundTrip | common/CommunityToolkit.Labs.Core.SourceGenerators/Metadata/ToolkitSampleTextOptionMetadataViewModel.cs:59-66 | setting `Value` to a string, then reading `Value`, gives that string back |
| TextOptionSpec.NullValueStoresEmpty | common/CommunityToolkit.Labs.Core.SourceGenerators/Metadata/ToolkitSampleTextOptionMetadataViewModel.cs:64 | setting `Value` to null succeeds and `PlaceholderText` then reads "" |
| TextOptionSpec.ValueIsPlaceholderTextPlusOneNotification | common/CommunityToolkit.Labs.Core.SourceGenerators/Metadata/ToolkitSampleTextOptionMetadataViewModel.cs:64-65 | a `Value` set of a string equals the `PlaceholderText` set followed by one more notification carrying `Name` |
| TextOptionSpec.RunKeepsNameAndValid | common/CommunityToolkit.Labs.Core.SourceGenerators/Metadata/ToolkitSampleTextOptionMetadataViewModel.cs:40-53 | no sequence of calls changes `Name`, and every sequence keeps a string in the value slot, so the getter's cast never fails |
| TextOptionSpec.RunLogCarriesNameOrTitle | common/CommunityToolkit.Labs.Core.SourceGenerators/Metadata/ToolkitSampleTextOptionMetadataViewModel.cs:54-78 | along any sequence of calls the delivered notifications only grow, and each new one carries the option's `Name` or "Title" |
| TextOptionSpec.RunUnobservedIsSilent | common/CommunityToolkit.Labs.Core.SourceGenerators/Metadata/ToolkitSampleTextOptionMetadataViewModel.cs:54-78 | with no handler attached and none attached along the way, any sequence of calls delivers nothing |
| TextOptionSpec.Reachable | common/CommunityToolkit.Labs.Core.SourceGenerators/Metadata/ToolkitSampleTextOptionMetadataViewModel.cs:24-53 | every state reachable from the constructor keeps the constructor's `Name` and holds a string value |
| TextOptionViewModel.ToolkitSampleTextOptionMetadataViewModel.constructor | common/CommunityToolkit.Labs.Core.SourceGenerators/Metadata/ToolkitSampleTextOptionMetadataViewModel.cs:24-29 | the new object is valid and its state is `Create(name, placeholderText, title)`, with the same defaults |
| TextOptionViewModel.ToolkitSampleTextOptionMetadataViewModel.RaisePropertyChanged | common/CommunityToolkit.Labs.Core.SourceGenerators/Metadata/ToolkitSampleTextOptionMetadataViewModel.cs:54 | the notification is logged only when a handler is attached, and nothing else changes |
| TextOptionViewModel.ToolkitSampleTextOptionMetadataViewModel.GetPlaceholderText | common/CommunityToolkit.Labs.Core.SourceGenerators/Metadata/ToolkitSampleTextOptionMetadataViewModel.cs:50 | returns the stored string |
| TextOptionViewModel.ToolkitSampleTextOptionMetadataViewModel.SetPlaceholderText | common/CommunityToolkit.Labs.Core.SourceGenerators/Metadata/ToolkitSampleTextOptionMetadataViewModel.cs:51-55 | the new state is `SetPlaceholderText` of the old one |
| TextOptionViewModel.ToolkitSampleTextOptionMetadataViewModel.GetValue | common/CommunityToolkit.Labs.Core.SourceGenerators/Metadata/ToolkitSampleTextOptionMetadataViewModel.cs:61 | returns the string `PlaceholderText` reads |
| TextOptionViewModel.ToolkitSampleTextOptionMetadataViewModel.SetValue | common/CommunityToolkit.Labs.Core.SourceGenerators/Metadata/ToolkitSampleTextOptionMetadataViewModel.cs:62-66 | succeeds exactly when `SetValue` does, then has that new state; on a failed cast the state is unchanged |
| TextOptionViewModel.ToolkitSampleTextOptionMetadataViewModel.GetTitle | common/CommunityToolkit.Labs.Core.SourceGenerators/Metadata/ToolkitSampleTextOptionMetadataViewModel.cs:74 | returns the stored title |
| TextOptionViewModel.ToolkitSampleTextOptionMetadataViewModel.SetTitle | common/CommunityToolkit.Labs.Core.SourceGenerators/Metadata/ToolkitSampleTextOptionMetadataViewModel.cs:75-79 | the new state is `SetTitle` of the old one |
| TextOptionViewModel.ToolkitSampleTextOptionMetadataViewModel.Subscribe | common/CommunityToolkit.Labs.Core.SourceGenerators/Metadata/ToolkitSampleTextOptionMetadataViewModel.cs:32 | the new state is `AddHandler` of the old one |
| TextOptionViewModel.ToolkitSampleTextOptionMetadataViewModel.Unsubscribe | common/CommunityToolkit.Labs.Core.SourceGenerators/Metadata/ToolkitSampleTextOptionMetadataViewModel.cs:32 | the new state is `RemoveHandler` of the old one |
| SizerSpec.CursorFor | labs/SizerBase/src/SizerBase.Properties.cs:103 | the cursor is SizeWestEast exactly for Vertical and SizeNorthSouth exactly for Horizontal |
| SizerSpec.Defaults | labs/SizerBase/src/SizerBase.Properties.cs:25-97 | a new control has Orientation Vertical, `_cursorToUse` SizeWestEast, Cursor at its null default, DragIncrement 1 and KeyboardIncrement 8, and satisfies the invariant |
| SizerSpec.OrientationChanged | labs/SizerBase/src/SizerBase.Properties.cs:99-117 | the callback re-establishes the invariant, writes the orientation's cursor into Cursor, and leaves the orientation and both increments unchanged |
| SizerSpec.SetOrientation | labs/SizerBase/src/SizerBase.Properties.cs:87-97 | stores the orientation; a real change runs the callback, so the invariant holds and Cursor is the orientation's cursor; writing the same value changes nothing; the increments never move |
| SizerSpec.SetCursor | labs/SizerBase/src/SizerBase.Properties.cs:30-34 | stores the cursor and changes nothing else |
| SizerSpec.SetDragIncrement | labs/SizerBase/src/SizerBase.Properties.cs:51-55 | stores the drag increment and changes nothing else |
| SizerSpec.SetKeyboardIncrement | labs/SizerBase/src/SizerBase.Properties.cs:69-73 | stores the keyboard increment and changes nothing else |
| SizerSpec.OrientationChangeOverridesCursor | labs/SizerBase/src/SizerBase.Properties.cs:112-114 | a real orientation change discards a cursor the user set before it |
| SizerSpec.SameOrientationKeepsCursor | labs/SizerBase/src/SizerBase.Properties.cs:96-97 | writing the current orientation again does not run the callback, so a user-set cursor survives |
| SizerSpec.SetOrientationIdempotent | labs/SizerBase/src/SizerBase.Properties.cs:96-117 | setting an orientation twice gives the same state as setting it once, from any state |
| SizerSpec.RunKeepsConsistent | labs/SizerBase/src/SizerBase.Properties.cs:99-117 | every sequence of property sets preserves `_cursorToUse == CursorFor(Orientation)` |
| SizerSpec.RunWithoutOrientationKeepsCursorToUse | labs/SizerBase/src/SizerBase.Properties.cs:30-79 | sets of Cursor and of the increments never change `_cursorToUse` or Orientation |
| SizerSpec.RunWithoutIncrementsKeepsIncrements | labs/SizerBase/src/SizerBase.Properties.cs:87-117 | sets of Orientation and Cursor, with their callback, never change DragIncrement or KeyboardIncrement |
| SizerSpec.Reachable | labs/SizerBase/src/SizerBase.Properties.cs:25-117 | every state reachable from a new control satisfies the invariant: the defaults establish it and every set keeps it |
| SizerControl.SizerBase.constructor | labs/SizerBase/src/SizerBase.Properties.cs:25-97 | a new control is valid and its state is `Defaults()` |
| SizerControl.SizerBase.OnOrientationPropertyChanged | labs/SizerBase/src/SizerBase.Properties.cs:99-117 | the control becomes valid and its state is `OrientationChanged` of the old one |
| SizerControl.SizerBase.GetOrientation | labs/SizerBase/src/SizerBase.Properties.cs:89 | returns the stored orientation |
| SizerControl.SizerBase.SetOrientation | labs/SizerBase/src/SizerBase.Properties.cs:90 | keeps the invariant; the new state is `SetOrientation` of the old one |
| SizerControl.SizerBase.GetCursor | labs/SizerBase/src/SizerBase.Properties.cs:32 | returns the stored cursor |
| SizerControl.SizerBase.SetCursor | labs/SizerBase/src/SizerBase.Properties.cs:33 | the new state is `SetCursor` of the old one |
| SizerControl.SizerBase.GetDragIncrement | labs/SizerBase/src/SizerBase.Properties.cs:53 | returns the stored drag increment |
| SizerControl.SizerBase.SetDragIncrement | labs/SizerBase/src/SizerBase.Properties.cs:54 | the new state is `SetDragIncrement` of the old one |
| SizerControl.SizerBase.GetKeyboardIncrement | labs/SizerBase/src/SizerBase.Properties.cs:71 | returns the stored keyboard increment |
| SizerControl.SizerBase.SetKeyboardIncrement | labs/SizerBase/src/SizerBase.Properties.cs:72 | the new state is `SetKeyboardIncrement` of the old one |

## Left out

- The WinAppSDK branch of the orientation callback (`ReadLocalValue`, `InputSystemCursor.Create`, `ProtectedCursor`) is not modelled. It calls into the platform's input API, and its `ReadLocalValue` result is never used. A single platform cannot take both branches, so only the UWP branch is modelled.
- The callback's `d is SizerBase` guard is not modelled. The callback is registered only on `SizerBase`'s own property, so the test always succeeds there.
- Dependency-property registration, binding, styling and callback dispatch are not modelled. Each property is a field holding its registered default, and the orientation callback is called directly when a set changes the stored orientation.
- SizerControl.SizerBase.GetCursor: returns the optional stored value. It does not model how the platform unboxes the `null` default registered for an enum-typed property, nor the documented promise that a null cursor is managed automatically. Both depend on framework coercion outside these files.
- The cursor-shape enumeration belongs to the platform and is not part of this model. Besides the two resize shapes, it is represented by an opaque numeric code.
- `DragIncrement` and `KeyboardIncrement` are stored as `real`. These files do no arithmetic on them, so IEEE-754 double behaviour (NaN, rounding) is not modelled.
- .NET event mechanics are not modelled. Delegate invocation order, handler side effects and re-entrant setter calls from inside a handler are left out. A notification is one log entry, however many handlers receive it.
- A `null` passed to the `PlaceholderText` setter or to the constructor's `name` or `placeholderText` is not modelled. These parameters are declared non-nullable, but that declaration only produces compiler warnings: at run time such a null would be stored, and the getter's cast would return null. The model does not represent that null.
