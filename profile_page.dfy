/** The profile page: loading the settings document, editing one key at a
    time, the defaults the two selects display, saving, and the colour of
    the status message. Browser storage and the HTTP requests are
    parameters standing for what they returned. */
module ProfilePage {
  import opened Js
  import Server

  const NotLoggedInMessage := "Error: Not logged in."
  const SavedMessage := "Settings saved successfully!"
  const SaveFailedMessage := "Error saving settings"
  const FontSizeDefault := "Default"
  const ContrastDefault := "None"

  /** `handleSettingChange`: `{ ...prev, [name]: value }`. */
  function SettingChanged(settings: Json, name: string, value: string): (r: Json)
    ensures r.Obj?
    ensures Prop(r, name) == Str(value)
    ensures forall k :: k != name ==> Prop(r, k) == Prop(Obj(Spread(settings)), k)
    ensures settings.Obj? ==> forall k :: k != name ==> Prop(r, k) == Prop(settings, k)
  {
    Obj(Spread(settings)[name := Str(value)])
  }

  /** The load effect: `response.data.settings || {}`. */
  function LoadedSettings(data: Json): (s: Json)
    ensures Truthy(s)
    ensures Truthy(Prop(data, "settings")) ==> s == Prop(data, "settings")
    ensures !Truthy(Prop(data, "settings")) ==> s == Obj(map[])
  {
    Or(Prop(data, "settings"), Obj(map[]))
  }

  /** The value the font-size select shows: `settings.fontSize || 'Default'`. */
  function FontSizeShown(settings: Json): (v: Json)
    ensures Truthy(v)
    ensures Truthy(Prop(settings, "fontSize")) ==> v == Prop(settings, "fontSize")
    ensures !Truthy(Prop(settings, "fontSize")) ==> v == Str(FontSizeDefault)
  {
    Or(Prop(settings, "fontSize"), Str(FontSizeDefault))
  }

  /** The value the contrast select shows: `settings.contrast || 'None'`. */
  function ContrastShown(settings: Json): (v: Json)
    ensures Truthy(v)
    ensures Truthy(Prop(settings, "contrast")) ==> v == Prop(settings, "contrast")
    ensures !Truthy(Prop(settings, "contrast")) ==> v == Str(ContrastDefault)
  {
    Or(Prop(settings, "contrast"), Str(ContrastDefault))
  }

  /** The two setting names are not index keys, so a spread never supplies them. */
  lemma NamesAreNotIndexKeys()
    ensures !IsIndexKey("fontSize") && !IsIndexKey("contrast")
  {
    assert "fontSize"[0] == 'f';
    assert "contrast"[0] == 'c';
  }

  /** Choosing a font size shows that size and leaves the contrast select
      as it was; choosing the empty value falls back to the default. */
  lemma FontSizeChangeShown(settings: Json, value: string)
    ensures value != "" ==> FontSizeShown(SettingChanged(settings, "fontSize", value)) == Str(value)
    ensures value == "" ==> FontSizeShown(SettingChanged(settings, "fontSize", value)) == Str(FontSizeDefault)
    ensures ContrastShown(SettingChanged(settings, "fontSize", value)) == ContrastShown(settings)
  {
    NamesAreNotIndexKeys();
  }

  /** Choosing a contrast mode shows that mode and leaves the font-size
      select as it was. */
  lemma ContrastChangeShown(settings: Json, value: string)
    ensures value != "" ==> ContrastShown(SettingChanged(settings, "contrast", value)) == Str(value)
    ensures value == "" ==> ContrastShown(SettingChanged(settings, "contrast", value)) == Str(ContrastDefault)
    ensures FontSizeShown(SettingChanged(settings, "contrast", value)) == FontSizeShown(settings)
  {
    NamesAreNotIndexKeys();
  }

  /** Setting the same key twice keeps only the second value. */
  lemma SettingChangedTwice(settings: Json, name: string, v1: string, v2: string)
    ensures SettingChanged(SettingChanged(settings, name, v1), name, v2) == SettingChanged(settings, name, v2)
  {
  }

  /** An edited document is always one the server's PUT accepts. */
  lemma EditedSettingsAccepted(settings: Json, name: string, value: string)
    ensures Server.SettingsAccepted(Prop(Obj(map["settings" := SettingChanged(settings, name, value)]), "settings"))
  {
  }

  /** `message.includes('Error')` picks the red style: the message is red
      exactly when "Error" occurs in it at some offset. */
  function MessageIsError(message: string): (red: bool)
    ensures red <==> exists i :: OccursAt(message, "Error", i)
  {
    IncludesIffOccurs(message, "Error");
    Includes(message, "Error")
  }

  /** The two failure messages are red and the success message is green. */
  lemma MessageColours()
    ensures MessageIsError(NotLoggedInMessage)
    ensures MessageIsError(SaveFailedMessage)
    ensures !MessageIsError(SavedMessage)
  {
    assert NotLoggedInMessage[..5] == "Error";
    assert SaveFailedMessage[..5] == "Error";
    ExcludesByFirstChar(SavedMessage, "Error");
  }

  class ProfileView {
    var settings: Json
    var message: string
    var loading: bool

    constructor ()
      ensures settings == Obj(map[]) && message == "" && loading
    {
      settings, message, loading := Obj(map[]), "", true;
    }

    /** The load effect. `token` is what storage holds; `response` is the
        body of a successful profile request, `None` when it failed.
        Returns whether the page navigates to the login page. */
    method OnLoad(token: Option<string>, response: Option<Json>) returns (toLogin: bool)
      modifies this
      ensures toLogin <==> !Present(token) || response.None?
      ensures toLogin ==> settings == old(settings) && loading == old(loading)
      ensures !toLogin ==> settings == LoadedSettings(response.value) && !loading
      ensures message == old(message)
    {
      if !Present(token) {
        return true;
      }
      if response.None? {
        return true;
      }
      settings := LoadedSettings(response.value);
      loading := false;
      return false;
    }

    /** `handleSettingChange` on the select named `name`. */
    method HandleSettingChange(name: string, value: string)
      modifies this
      ensures settings == SettingChanged(old(settings), name, value)
      ensures message == old(message) && loading == old(loading)
    {
      settings := SettingChanged(settings, name, value);
    }

    /** `handleSubmit`. Returns the request body sent, `None` when nothing
        was sent; `saved` is whether the request succeeded and
        `unauthorized` whether it failed with status 401. */
    method HandleSubmit(token: Option<string>, saved: bool, unauthorized: bool)
      returns (sent: Option<Json>, toLogin: bool)
      modifies this
      ensures settings == old(settings) && loading == old(loading)
      ensures !Present(token) ==> sent.None? && toLogin && message == NotLoggedInMessage
      ensures Present(token) ==> sent == Some(Obj(map["settings" := settings]))
      ensures Present(token) && saved ==> message == SavedMessage && !toLogin
      ensures Present(token) && !saved ==> message == SaveFailedMessage && (toLogin <==> unauthorized)
    {
      if !Present(token) {
        message := NotLoggedInMessage;
        return None, true;
      }
      sent := Some(Obj(map["settings" := settings]));
      if saved {
        message := SavedMessage;
        toLogin := false;
      } else {
        message := SaveFailedMessage;
        toLogin := unauthorized;
      }
    }
  }
}
