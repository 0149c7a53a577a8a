/**
 * The message lookup `t`: a dotted key is resolved one segment at a time
 * through a locale's nested message table, and the key itself is returned
 * whenever no string is found there.
 */
module Localization {
  import opened Common

  /** A message table entry: a string, or a nested table. */
  datatype Message = Text(text: string) | Table(entries: map<string, Message>)

  /** The locales the application offers. */
  const AvailableLocales: seq<string> := ["en", "de"]

  /** The locale `t` and `useI18n` fall back on. */
  const DefaultLocale := "de"

  /** The message tables, one per locale. */
  const Messages: map<string, Message> := map[
    "en" := Table(map["auth" := Table(map[
      "welcomeBack" := Text("Welcome Back"),
      "signInToContinue" := Text("Sign in to continue to your account"),
      "connecting" := Text("Connecting..."),
      "authenticating" := Text("Authenticating..."),
      "redirecting" := Text("Redirecting..."),
      "azureAdDescription" :=
        Text("We're securely connecting you to Azure Active Directory. This will only take a moment.")])]),
    "de" := Table(map["auth" := Table(map[
      "welcomeBack" := Text("Willkommen zurück"),
      "signInToContinue" := Text("Melden Sie sich an, um zu Ihrem Konto zu gelangen"),
      "connecting" := Text("Verbinden..."),
      "authenticating" := Text("Authentifizieren..."),
      "redirecting" := Text("Weiterleiten..."),
      "azureAdDescription" :=
        Text("Wir verbinden Sie sicher mit Azure Active Directory. Das dauert nur einen Moment.")])])]

  /** `s.split(separator)`: the pieces between separators, never empty and free of the separator. */
  function Split(s: string, separator: char): (parts: seq<string>)
    ensures |parts| >= 1
    ensures forall i | 0 <= i < |parts| :: separator !in parts[i]
  {
    if s == [] then [""]
    else
      var rest := Split(s[1..], separator);
      if s[0] == separator then [""] + rest
      else [[s[0]] + rest[0]] + rest[1..]
  }

  /** `parts.join(separator)` */
  function Join(parts: seq<string>, separator: char): string
    requires |parts| >= 1
    decreases |parts|
  {
    if |parts| == 1 then parts[0] else parts[0] + [separator] + Join(parts[1..], separator)
  }

  /** Joining the pieces of a split gives back the string. */
  lemma {:induction false} JoinSplit(s: string, separator: char)
    ensures Join(Split(s, separator), separator) == s
    decreases |s|
  {
    if s != [] {
      var rest := Split(s[1..], separator);
      JoinSplit(s[1..], separator);
      if s[0] != separator && |rest| > 1 {
        calc {
          Join(Split(s, separator), separator);
          ([s[0]] + rest[0]) + [separator] + Join(rest[1..], separator);
          [s[0]] + (rest[0] + [separator] + Join(rest[1..], separator));
          [s[0]] + s[1..];
        }
      }
    }
  }

  /** Splitting the join of separator-free pieces gives back the pieces. */
  lemma {:induction false} SplitJoin(parts: seq<string>, separator: char)
    requires |parts| >= 1
    requires forall i | 0 <= i < |parts| :: separator !in parts[i]
    ensures Split(Join(parts, separator), separator) == parts
    decreases |parts|, |parts[0]|
  {
    if parts[0] != [] {
      var tail := [parts[0][1..]] + parts[1..];
      assert Join(parts, separator) == [parts[0][0]] + Join(tail, separator) by {
        assert tail[1..] == parts[1..];
      }
      SplitJoin(tail, separator);
      assert [parts[0][0]] + tail[0] == parts[0];
      assert [[parts[0][0]] + tail[0]] + tail[1..] == parts;
    } else if |parts| == 1 {
    } else {
      assert Join(parts, separator) == [separator] + Join(parts[1..], separator);
      SplitJoin(parts[1..], separator);
      assert [""] + parts[1..] == parts;
    }
  }

  /** Follows `path` through nested tables; `None` when a segment is missing or a string is reached early. */
  function Resolve(node: Message, path: seq<string>): Option<Message>
    decreases |path|
  {
    if path == [] then Some(node)
    else
      match node
      case Table(entries) => if path[0] in entries then Resolve(entries[path[0]], path[1..]) else None
      case Text(_) => None
  }

  /** `key` has a string under `locale`. */
  predicate Translates(messages: map<string, Message>, key: string, locale: string) {
    locale in messages && Resolve(messages[locale], Split(key, '.')).Some?
    && Resolve(messages[locale], Split(key, '.')).value.Text?
  }

  /**
   * What `t(key, locale)` returns over `messages`: the string the dotted key
   * reaches in the locale's table, otherwise the key itself.
   */
  function Lookup(messages: map<string, Message>, key: string, locale: string): (r: string)
    ensures !Translates(messages, key, locale) ==> r == key
    ensures Translates(messages, key, locale) ==>
              Resolve(messages[locale], Split(key, '.')) == Some(Text(r))
  {
    if locale !in messages then key
    else
      match Resolve(messages[locale], Split(key, '.'))
      case Some(Text(s)) => s
      case _ => key
  }

  /**
   * t(key, locale): an unknown locale gives the key; otherwise the key's
   * segments are followed one by one, leaving with the key as soon as one is
   * missing or a string is reached early, and a non-string at the end gives
   * the key too. An omitted locale is the default locale.
   */
  method Translate(key: string, locale: Option<string>) returns (r: string)
    ensures r == Lookup(Messages, key, locale.GetOr(DefaultLocale))
  {
    var lang := locale.GetOr(DefaultLocale);
    if lang !in Messages {
      return key;
    }
    var keyParts := Split(key, '.');
    var result := Messages[lang];
    for i := 0 to |keyParts|
      invariant Resolve(Messages[lang], keyParts) == Resolve(result, keyParts[i..])
    {
      var part := keyParts[i];
      if result.Table? && part in result.entries {
        assert keyParts[i..][1..] == keyParts[i + 1..];
        result := result.entries[part];
      } else {
        return key;
      }
    }
    return if result.Text? then result.text else key;
  }

  /** The translator useI18n returns, bound to one locale. */
  datatype I18n = I18n(locale: string) {

    /** Its `t`: the module's `t` with the bound locale. */
    method T(key: string) returns (r: string)
      ensures r == Lookup(Messages, key, locale)
    {
      r := Translate(key, Some(locale));
    }
  }

  /** useI18n(locale): a translator for the locale, the default locale when it is omitted. */
  function UseI18n(locale: Option<string>): (i: I18n)
    ensures locale.None? ==> i.locale == DefaultLocale
    ensures locale.Some? ==> i.locale == locale.value
  {
    I18n(locale.GetOr(DefaultLocale))
  }

  /** Two tables with the same keys at every level, strings where the other has strings. */
  predicate SameShape(a: Message, b: Message) {
    match a
    case Text(_) => b.Text?
    case Table(entries) =>
      b.Table? && entries.Keys == b.entries.Keys
      && forall k | k in entries :: SameShape(entries[k], b.entries[k])
  }

  /** Tables of the same shape resolve the same paths, to strings at the same places. */
  lemma {:induction false} SameShapeResolvesAlike(a: Message, b: Message, path: seq<string>)
    requires SameShape(a, b)
    ensures Resolve(a, path).Some? <==> Resolve(b, path).Some?
    ensures Resolve(a, path).Some? ==> (Resolve(a, path).value.Text? <==> Resolve(b, path).value.Text?)
    decreases |path|
  {
    if path != [] && a.Table? && path[0] in a.entries {
      SameShapeResolvesAlike(a.entries[path[0]], b.entries[path[0]], path[1..]);
    }
  }

  /**
   * The available locales are exactly those with a table, the default among
   * them, and both tables have the same shape, so a key has an English
   * string exactly when it has a German one.
   */
  lemma LocalesAgree(key: string)
    ensures multiset(AvailableLocales) == multiset(Messages.Keys)
    ensures DefaultLocale in AvailableLocales
    ensures Translates(Messages, key, "en") <==> Translates(Messages, key, "de")
  {
    var en, de := Messages["en"], Messages["de"];
    assert SameShape(en.entries["auth"], de.entries["auth"]);
    assert SameShape(en, de);
    SameShapeResolvesAlike(en, de, Split(key, '.'));
  }

  /** The key "auth.welcomeBack" names the path auth, welcomeBack. */
  lemma WelcomeBackSplits()
    ensures Split("auth.welcomeBack", '.') == ["auth", "welcomeBack"]
  {
    var parts := ["auth", "welcomeBack"];
    assert Join(parts, '.') == "auth.welcomeBack";
    assert '.' !in parts[0] && '.' !in parts[1];
    SplitJoin(parts, '.');
  }

  /** The path auth, welcomeBack leads to the welcome string in both tables. */
  lemma WelcomeBackResolves()
    ensures Resolve(Messages["en"], ["auth", "welcomeBack"]) == Some(Text("Welcome Back"))
    ensures Resolve(Messages["de"], ["auth", "welcomeBack"]) == Some(Text("Willkommen zurück"))
  {
  }

  /** A key whose path reaches a string in the locale's table is translated to that string. */
  lemma LookupFollowsPath(messages: map<string, Message>, key: string, locale: string, path: seq<string>, s: string)
    requires locale in messages && Split(key, '.') == path
    requires Resolve(messages[locale], path) == Some(Text(s))
    ensures Lookup(messages, key, locale) == s
  {
  }

  /** The welcome string in both locales. */
  lemma WelcomeBack()
    ensures Lookup(Messages, "auth.welcomeBack", "en") == "Welcome Back"
    ensures Lookup(Messages, "auth.welcomeBack", "de") == "Willkommen zurück"
  {
    var path := ["auth", "welcomeBack"];
    WelcomeBackSplits();
    WelcomeBackResolves();
    LookupFollowsPath(Messages, "auth.welcomeBack", "en", path, "Welcome Back");
    LookupFollowsPath(Messages, "auth.welcomeBack", "de", path, "Willkommen zurück");
  }
}
