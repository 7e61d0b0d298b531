/**
 * The state of a text sample option (`ToolkitSampleTextOptionMetadataViewModel`)
 * as a value, with one function per constructor, getter and setter, and the
 * properties that hold of every sequence of setter calls.
 *
 * A `PropertyChanged` notification is recorded as the property name its event
 * arguments carry, appended to `log` when the event has at least one handler.
 */
module TextOptionSpec {
  import opened Wrappers

  /** A run-time object as the untyped `Value` slot sees it: a null reference,
      a string, or an object of any other type. */
  datatype Obj = Null | Str(s: string) | NonString

  /** Identity of a delegate attached to `PropertyChanged`. */
  type HandlerId = nat

  /**
   * name:     the immutable identifier of the option (`Name`)
   * title:    the nullable display title (`_title`)
   * value:    the untyped value slot (`_value`)
   * handlers: the delegates attached to `PropertyChanged`; a delegate may be
   *           attached more than once
   * log:      the property names of the notifications delivered so far
   */
  datatype TextOptionState = TextOptionState(
    name: string,
    title: Option<string>,
    value: Obj,
    handlers: multiset<HandlerId>,
    log: seq<string>)

  /** The property name `nameof(Title)` passes to its notification. */
  const TitleProperty: string := "Title"

  /** The value slot only ever holds a string, so the `(string)_value` cast of
      the `PlaceholderText` getter cannot fail. */
  predicate Valid(st: TextOptionState) {
    st.value.Str?
  }

  /** `PropertyChanged?.Invoke(...)`: the notification is delivered only when
      a handler is attached. */
  function Notify(st: TextOptionState, propertyName: string): (r: TextOptionState)
    ensures |st.handlers| > 0 ==> r.log == st.log + [propertyName]
    ensures |st.handlers| == 0 ==> r.log == st.log
    ensures r.(log := st.log) == st
  {
    if |st.handlers| > 0 then st.(log := st.log + [propertyName]) else st
  }

  /** The notifications that reach the log when `raised` are raised while
      `handlers` are attached. */
  function Delivered(handlers: multiset<HandlerId>, raised: seq<string>): seq<string> {
    if |handlers| > 0 then raised else []
  }

  /** The constructor: nothing is attached and nothing has been notified. */
  function Create(name: string, placeholderText: string := "", title: Option<string> := None): (st: TextOptionState)
    ensures Valid(st) && PlaceholderText(st) == placeholderText
    ensures st.name == name && st.title == title
    ensures st.handlers == multiset{} && st.log == []
  {
    TextOptionState(name, title, Str(placeholderText), multiset{}, [])
  }

  /** The `PlaceholderText` getter. */
  function PlaceholderText(st: TextOptionState): (s: string)
    requires Valid(st)
    ensures st.value == Str(s)
  {
    st.value.s
  }

  /** The `PlaceholderText` setter: stores the string and raises one
      notification carrying the option's `Name`, not "PlaceholderText". */
  function SetPlaceholderText(st: TextOptionState, s: string): (r: TextOptionState)
    ensures Valid(r) && PlaceholderText(r) == s
    ensures r.name == st.name && r.title == st.title && r.handlers == st.handlers
    ensures r.log == st.log + Delivered(st.handlers, [st.name])
  {
    Notify(st.(value := Str(s)), st.name)
  }

  /** The cast `(string)(value ?? string.Empty)`: `None` is the
      `InvalidCastException`. */
  function CastToString(v: Obj): (r: Option<string>)
    ensures r == None <==> v == NonString
    ensures v == Null ==> r == Some("")
    ensures v.Str? ==> r == Some(v.s)
  {
    match v
    case Null => Some("")
    case Str(s) => Some(s)
    case NonString => None
  }

  /** Outcome of the `Value` setter: the new state, or the cast failure, which
      is thrown before anything is stored or notified. */
  datatype SetOutcome = Stored(after: TextOptionState) | InvalidCast

  /** The `Value` setter: goes through the `PlaceholderText` setter and then
      notifies once more itself, so two notifications carrying `Name`. */
  function SetValue(st: TextOptionState, v: Obj): (r: SetOutcome)
    ensures r == InvalidCast <==> v == NonString
    ensures r.Stored? ==>
      && Valid(r.after)
      && PlaceholderText(r.after) == (if v == Null then "" else v.s)
      && r.after.name == st.name && r.after.title == st.title && r.after.handlers == st.handlers
      && r.after.log == st.log + Delivered(st.handlers, [st.name, st.name])
  {
    match CastToString(v)
    case None => InvalidCast
    case Some(s) => Stored(Notify(SetPlaceholderText(st, s), st.name))
  }

  /** The `Value` getter forwards to the `PlaceholderText` getter. */
  function GetValue(st: TextOptionState): (v: Obj)
    requires Valid(st)
    ensures v.Str? && v.s == PlaceholderText(st)
  {
    Str(PlaceholderText(st))
  }

  /** The `Title` setter: stores the title and raises one notification named
      "Title"; the value slot is left alone. */
  function SetTitle(st: TextOptionState, t: Option<string>): (r: TextOptionState)
    ensures r.title == t
    ensures r.name == st.name && r.value == st.value && r.handlers == st.handlers
    ensures r.log == st.log + Delivered(st.handlers, [TitleProperty])
  {
    Notify(st.(title := t), TitleProperty)
  }

  /** `PropertyChanged += h`. */
  function AddHandler(st: TextOptionState, h: HandlerId): (r: TextOptionState)
    ensures r.handlers == st.handlers + multiset{h}
    ensures r.(handlers := st.handlers) == st
  {
    st.(handlers := st.handlers + multiset{h})
  }

  /** `PropertyChanged -= h`: removes one attachment of `h`, if any. */
  function RemoveHandler(st: TextOptionState, h: HandlerId): (r: TextOptionState)
    ensures r.handlers == st.handlers - multiset{h}
    ensures h !in st.handlers ==> r == st
    ensures r.(handlers := st.handlers) == st
  {
    st.(handlers := st.handlers - multiset{h})
  }

  // ---------------------------------------------------------------------
  // One call on the public surface, and sequences of them.

  datatype Call =
    | PutPlaceholderText(s: string)
    | PutValue(v: Obj)
    | PutTitle(t: Option<string>)
    | Subscribe(h: HandlerId)
    | Unsubscribe(h: HandlerId)

  /** The state after one call; a `Value` assignment whose cast throws leaves
      the state as it was. */
  function Step(st: TextOptionState, c: Call): TextOptionState {
    match c
    case PutPlaceholderText(s) => SetPlaceholderText(st, s)
    case PutValue(v) => (match SetValue(st, v) case Stored(after) => after case InvalidCast => st)
    case PutTitle(t) => SetTitle(st, t)
    case Subscribe(h) => AddHandler(st, h)
    case Unsubscribe(h) => RemoveHandler(st, h)
  }

  /** The state after the calls `cs`, in order. */
  function Run(st: TextOptionState, cs: seq<Call>): TextOptionState
    decreases |cs|
  {
    if cs == [] then st else Run(Step(st, cs[0]), cs[1..])
  }

  // ---------------------------------------------------------------------
  // Properties of single calls.

  /** Setting `Value` to a string and reading it back gives that string. */
  lemma ValueRoundTrip(st: TextOptionState, s: string)
    ensures SetValue(st, Str(s)).Stored?
    ensures GetValue(SetValue(st, Str(s)).after) == Str(s)
  {
  }

  /** Setting `Value` to null stores the empty string. */
  lemma NullValueStoresEmpty(st: TextOptionState)
    ensures SetValue(st, Null).Stored?
    ensures PlaceholderText(SetValue(st, Null).after) == ""
  {
  }

  /** Through `Value`, a string lands in the same state as through
      `PlaceholderText`, plus one more notification carrying `Name`. */
  lemma ValueIsPlaceholderTextPlusOneNotification(st: TextOptionState, s: string)
    ensures SetValue(st, Str(s)).Stored?
    ensures SetValue(st, Str(s)).after == Notify(SetPlaceholderText(st, s), st.name)
  {
  }

  /** `-=` undoes `+=`, and `+=` undoes a `-=` that found its handler. */
  lemma HandlerInverses(st: TextOptionState, h: HandlerId)
    ensures RemoveHandler(AddHandler(st, h), h) == st
    ensures h in st.handlers ==> AddHandler(RemoveHandler(st, h), h) == st
  {
  }

  // ---------------------------------------------------------------------
  // Properties of every sequence of calls.

  /** No call changes `Name`, and every call keeps a string in the value slot. */
  lemma {:induction false} RunKeepsNameAndValid(st: TextOptionState, cs: seq<Call>)
    ensures Run(st, cs).name == st.name
    ensures Valid(st) ==> Valid(Run(st, cs))
    decreases |cs|
  {
    if cs != [] {
      RunKeepsNameAndValid(Step(st, cs[0]), cs[1..]);
    }
  }

  /** The log only grows, and every notification delivered carries either the
      option's `Name` or "Title". */
  lemma {:induction false} RunLogCarriesNameOrTitle(st: TextOptionState, cs: seq<Call>)
    ensures st.log <= Run(st, cs).log
    ensures forall i :: |st.log| <= i < |Run(st, cs).log| ==>
      Run(st, cs).log[i] == st.name || Run(st, cs).log[i] == TitleProperty
    decreases |cs|
  {
    if cs != [] {
      var next := Step(st, cs[0]);
      assert st.log <= next.log;
      assert forall i :: |st.log| <= i < |next.log| ==> next.log[i] == st.name || next.log[i] == TitleProperty;
      RunLogCarriesNameOrTitle(next, cs[1..]);
    }
  }

  /** Without an attached handler, and with no call attaching one, the setters
      change the state but deliver nothing. */
  lemma {:induction false} RunUnobservedIsSilent(st: TextOptionState, cs: seq<Call>)
    requires st.handlers == multiset{}
    requires forall i :: 0 <= i < |cs| ==> !cs[i].Subscribe?
    ensures Run(st, cs).log == st.log
    ensures Run(st, cs).handlers == multiset{}
    decreases |cs|
  {
    if cs != [] {
      assert !cs[0].Subscribe?;
      RunUnobservedIsSilent(Step(st, cs[0]), cs[1..]);
    }
  }

  /** Every state reachable from the constructor has the constructor's `Name`
      and a string in the value slot. */
  lemma Reachable(name: string, placeholderText: string, title: Option<string>, cs: seq<Call>)
    ensures Run(Create(name, placeholderText, title), cs).name == name
    ensures Valid(Run(Create(name, placeholderText, title), cs))
  {
    RunKeepsNameAndValid(Create(name, placeholderText, title), cs);
  }
}
