/** The settings page (src/app/settings/page.tsx): three groups of
    settings, each updated one key at a time, and the logout button. */
module Settings {
  import Auth

  /** A setting is a switch or a chosen option. */
  datatype SettingValue = Flag(on: bool) | Choice(option: string)

  type Group = map<string, SettingValue>

  const DefaultNotifications: Group := map[
    "email" := Flag(true), "push" := Flag(false), "sports" := Flag(true), "food" := Flag(true),
    "marketplace" := Flag(false), "research" := Flag(true), "career" := Flag(true)]

  const DefaultPrivacy: Group := map[
    "profileVisibility" := Choice("public"), "showEmail" := Flag(false),
    "showStudentId" := Flag(false), "showActivity" := Flag(true)]

  const DefaultAppearance: Group := map[
    "theme" := Choice("light"), "language" := Choice("ja"), "compactMode" := Flag(false)]

  /** `{ ...group, [key]: value }`: the key is set, every other entry kept. */
  function Update(g: Group, key: string, value: bool): (r: Group)
    ensures key in r && r[key] == Flag(value)
    ensures r.Keys == g.Keys + {key}
    ensures forall k :: k in g && k != key ==> r[k] == g[k]
  {
    g[key := Flag(value)]
  }

  /** The later of two updates of one key wins. */
  lemma UpdateOverwrites(g: Group, key: string, a: bool, b: bool)
    ensures Update(Update(g, key, a), key, b) == Update(g, key, b)
  {
  }

  /** Updates of different keys commute. */
  lemma UpdatesCommute(g: Group, k1: string, v1: bool, k2: string, v2: bool)
    requires k1 != k2
    ensures Update(Update(g, k1, v1), k2, v2) == Update(Update(g, k2, v2), k1, v1)
  {
  }

  /** Setting a switch to the value it has changes nothing. */
  lemma UpdateSameValue(g: Group, key: string, value: bool)
    requires key in g && g[key] == Flag(value)
    ensures Update(g, key, value) == g
  {
  }

  /** The declared defaults: e-mail on, push off, profile public, light theme. */
  lemma DefaultsAsDeclared()
    ensures DefaultNotifications["email"] == Flag(true) && DefaultNotifications["push"] == Flag(false)
    ensures DefaultPrivacy["profileVisibility"] == Choice("public") && DefaultPrivacy["showEmail"] == Flag(false)
    ensures DefaultAppearance["theme"] == Choice("light") && DefaultAppearance["compactMode"] == Flag(false)
  {
  }

  class SettingsPage {
    var notifications: Group
    var privacy: Group
    var appearance: Group

    constructor ()
      ensures notifications == DefaultNotifications && privacy == DefaultPrivacy && appearance == DefaultAppearance
    {
      notifications, privacy, appearance := DefaultNotifications, DefaultPrivacy, DefaultAppearance;
    }

    method UpdateNotificationSetting(key: string, value: bool)
      modifies this
      ensures notifications == Update(old(notifications), key, value)
      ensures privacy == old(privacy) && appearance == old(appearance)
    {
      notifications := Update(notifications, key, value);
    }

    method UpdatePrivacySetting(key: string, value: bool)
      modifies this
      ensures privacy == Update(old(privacy), key, value)
      ensures notifications == old(notifications) && appearance == old(appearance)
    {
      privacy := Update(privacy, key, value);
    }

    method UpdateAppearanceSetting(key: string, value: bool)
      modifies this
      ensures appearance == Update(old(appearance), key, value)
      ensures notifications == old(notifications) && privacy == old(privacy)
    {
      appearance := Update(appearance, key, value);
    }

    /** The logout button ends the session; the settings are kept. */
    method HandleLogout(auth: Auth.AuthSession)
      modifies auth
      ensures auth.user.None? && auth.fixture == old(auth.fixture)
    {
      auth.Logout();
    }
  }
}
