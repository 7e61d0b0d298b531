/**
 * `ToolkitSampleTextOptionMetadataViewModel` as a class whose setters update
 * its fields in place. Each method is tied to the function of `TextOptionSpec`
 * that gives the new state, through `Model()`.
 */
module TextOptionViewModel {
  import opened Wrappers
  import Spec = TextOptionSpec

  class ToolkitSampleTextOptionMetadataViewModel {
    /** `Name { get; }`: assigned once, by the constructor. */
    const name: string
    var title: Option<string>
    var value: Spec.Obj
    /** The delegates attached to `PropertyChanged`. */
    var handlers: multiset<Spec.HandlerId>
    /** The property names of the notifications delivered so far. */
    ghost var log: seq<string>

    ghost function Model(): Spec.TextOptionState
      reads this
    {
      Spec.TextOptionState(name, title, value, handlers, log)
    }

    ghost predicate Valid()
      reads this
    {
      Spec.Valid(Model())
    }

    constructor (name: string, placeholderText: string := "", title: Option<string> := None)
      ensures Valid()
      ensures Model() == Spec.Create(name, placeholderText, title)
    {
      this.name := name;
      this.title := title;
      this.value := Spec.Str(placeholderText);
      this.handlers := multiset{};
      this.log := [];
    }

    /** `PropertyChanged?.Invoke(this, new PropertyChangedEventArgs(propertyName))`. */
    method RaisePropertyChanged(propertyName: string)
      modifies this`log
      ensures Model() == Spec.Notify(old(Model()), propertyName)
    {
      if |handlers| > 0 {
        log := log + [propertyName];
      }
    }

    method GetPlaceholderText() returns (s: string)
      requires Valid()
      ensures s == Spec.PlaceholderText(Model())
    {
      s := value.s;
    }

    method SetPlaceholderText(s: string)
      modifies this
      ensures Model() == Spec.SetPlaceholderText(old(Model()), s)
    {
      value := Spec.Str(s);
      RaisePropertyChanged(name);
    }

    method GetValue() returns (v: Spec.Obj)
      requires Valid()
      ensures v == Spec.GetValue(Model())
    {
      var s := GetPlaceholderText();
      v := Spec.Str(s);
    }

    /** Returns false for the `InvalidCastException`, after which nothing is
        stored and nothing is notified. */
    method SetValue(v: Spec.Obj) returns (ok: bool)
      modifies this
      ensures ok == Spec.SetValue(old(Model()), v).Stored?
      ensures ok ==> Model() == Spec.SetValue(old(Model()), v).after
      ensures !ok ==> Model() == old(Model())
    {
      var cast := Spec.CastToString(v);
      if cast.None? {
        return false;
      }
      SetPlaceholderText(cast.value);
      RaisePropertyChanged(name);
      ok := true;
    }

    method GetTitle() returns (t: Option<string>)
      ensures t == Model().title
    {
      t := title;
    }

    method SetTitle(t: Option<string>)
      modifies this
      ensures Model() == Spec.SetTitle(old(Model()), t)
    {
      title := t;
      RaisePropertyChanged(Spec.TitleProperty);
    }

    /** `PropertyChanged += h`. */
    method Subscribe(h: Spec.HandlerId)
      modifies this
      ensures Model() == Spec.AddHandler(old(Model()), h)
    {
      handlers := handlers + multiset{h};
    }

    /** `PropertyChanged -= h`. */
    method Unsubscribe(h: Spec.HandlerId)
      modifies this
      ensures Model() == Spec.RemoveHandler(old(Model()), h)
    {
      handlers := handlers - multiset{h};
    }
  }
}
