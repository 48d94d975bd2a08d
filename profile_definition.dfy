/** `ProfileDefinition.newProfile`: a new, empty user profile of the
    definition's default kind, unless restoring from a typed id is enabled
    and the id names a profile class before its `#` separator, in which case
    a profile of that class. Java's reflective class lookup is a finite
    registry of class names. */
module ProfileDefinitions {
  import opened Wrappers
  import opened Text

  /** `CommonProfile.SEPARATOR` between a profile's class name and its id. */
  const SEPARATOR: char := '#'

  /** The profile classes the registry knows; `CommonProfile` extends
      `BasicUserProfile`, and `AnonymousProfile` extends `CommonProfile`. */
  datatype ProfileKind = BasicUserProfile | CommonProfile | AnonymousProfile

  /** Java's `instanceof` between the profile classes. */
  predicate InstanceOf(p: ProfileKind, cls: ProfileKind) {
    p == cls
    || (cls == BasicUserProfile)
    || (cls == CommonProfile && p == AnonymousProfile)
  }

  /** What a class name denotes: a profile class, or some other class. */
  datatype ClassEntry = ProfileClass(kind: ProfileKind) | OtherClass

  /** The classes `Class.forName` can load; other names are not found. */
  const Registry: map<string, ClassEntry> := map[
    "org.pac4j.core.profile.BasicUserProfile" := ProfileClass(BasicUserProfile),
    "org.pac4j.core.profile.CommonProfile" := ProfileClass(CommonProfile),
    "org.pac4j.core.profile.AnonymousProfile" := ProfileClass(AnonymousProfile),
    "java.lang.String" := OtherClass
  ]

  /** A definition: whether typed ids are honoured, and the kind
      `newProfile` builds otherwise. */
  datatype ProfileDefinition = ProfileDefinition(restoreProfileFromTypedId: bool, defaultKind: ProfileKind)

  /** `new CommonProfileDefinition()`: restoring off, `CommonProfile` by default. */
  function CommonProfileDefinition(): (d: ProfileDefinition)
    ensures !d.restoreProfileFromTypedId && d.defaultKind == CommonProfile
  {
    ProfileDefinition(false, CommonProfile)
  }

  /** The profile class a class name denotes, if it names one. */
  function ProfileClassNamed(name: string): (r: Option<ProfileKind>)
    ensures r.Some? <==> name in Registry && Registry[name].ProfileClass?
    ensures r.Some? ==> Registry[name] == ProfileClass(r.value)
  {
    if name in Registry && Registry[name].ProfileClass? then Some(Registry[name].kind) else None
  }

  /** The profile class a typed id designates: the class named by the text
      before its first `#`, when that is a profile class. */
  function DesignatedKind(typedId: string): (r: Option<ProfileKind>)
    ensures SEPARATOR !in typedId ==> r.None?
    ensures forall name, rest | SEPARATOR !in name && typedId == name + [SEPARATOR] + rest ::
              r == ProfileClassNamed(name)
  {
    assert forall name, rest | SEPARATOR !in name && typedId == name + [SEPARATOR] + rest ::
             IndexOf(typedId, SEPARATOR) == Some(|name|) && typedId[..|name|] == name by {
      forall name, rest | SEPARATOR !in name && typedId == name + [SEPARATOR] + rest
        ensures IndexOf(typedId, SEPARATOR) == Some(|name|) && typedId[..|name|] == name
      {
        IndexOfAfterPrefix(name, SEPARATOR, rest);
      }
    }
    match IndexOf(typedId, SEPARATOR)
    case None => None
    case Some(i) => ProfileClassNamed(typedId[..i])
  }

  /** `newProfile()` with no id, or `newProfile(typedId)`: with restoring on,
      an id `<name>#<rest>` whose `<name>` is a profile class gives that
      class; every other id, and every call with restoring off, gives the
      default kind. Never an error. */
  function NewProfile(d: ProfileDefinition, typedId: Option<string>): (p: ProfileKind)
    ensures !d.restoreProfileFromTypedId || typedId.None? ==> p == d.defaultKind
    ensures typedId.Some? && SEPARATOR !in typedId.value ==> p == d.defaultKind
    ensures d.restoreProfileFromTypedId && typedId.Some? ==>
              forall name, rest | SEPARATOR !in name && typedId.value == name + [SEPARATOR] + rest ::
                p == if ProfileClassNamed(name).Some? then ProfileClassNamed(name).value else d.defaultKind
  {
    if d.restoreProfileFromTypedId && typedId.Some? then
      match DesignatedKind(typedId.value)
      case Some(k) => k
      case None => d.defaultKind
    else d.defaultKind
  }

  /** `newProfile()` of a fresh `CommonProfileDefinition` is a `CommonProfile`. */
  lemma NewProfileIsCommon()
    ensures InstanceOf(NewProfile(CommonProfileDefinition(), None), CommonProfile)
  {
  }

  /** Registered names never contain the separator. */
  lemma RegistryNamesUnseparated(name: string)
    requires name in Registry
    ensures SEPARATOR !in name
  {
  }

  /** With restoring on, `<profile class>#<anything>` restores that class. */
  lemma RestoreNamedProfile(d: ProfileDefinition, name: string, rest: string)
    requires d.restoreProfileFromTypedId
    requires name in Registry && Registry[name].ProfileClass?
    ensures NewProfile(d, Some(name + [SEPARATOR] + rest)) == Registry[name].kind
  {
    RegistryNamesUnseparated(name);
  }

  /** The case the tests spell out: `BasicUserProfile#` restores a
      `BasicUserProfile`, which is not a `CommonProfile`. */
  lemma RestoreBasicUserProfile()
    ensures
      var d := ProfileDefinition(true, CommonProfile);
      var p := NewProfile(d, Some("org.pac4j.core.profile.BasicUserProfile#"));
      InstanceOf(p, BasicUserProfile) && !InstanceOf(p, CommonProfile)
  {
    var name := "org.pac4j.core.profile.BasicUserProfile";
    RestoreNamedProfile(ProfileDefinition(true, CommonProfile), name, "");
    assert name + [SEPARATOR] + "" == "org.pac4j.core.profile.BasicUserProfile#";
  }

  /** With restoring on, an id without a separator gives the default kind. */
  lemma RestoreWithoutSeparator(d: ProfileDefinition, typedId: string)
    requires d.restoreProfileFromTypedId && SEPARATOR !in typedId
    ensures NewProfile(d, Some(typedId)) == d.defaultKind
  {
  }

  /** With restoring on, an id naming a class that is not a profile, or no
      known class at all, gives the default kind. */
  lemma RestoreNonProfileClass(d: ProfileDefinition, name: string, rest: string)
    requires d.restoreProfileFromTypedId
    requires name !in Registry || Registry[name].OtherClass?
    requires SEPARATOR !in name
    ensures NewProfile(d, Some(name + [SEPARATOR] + rest)) == d.defaultKind
  {
  }

  /** The test's `String#` case. */
  lemma RestoreStringClass()
    ensures InstanceOf(NewProfile(ProfileDefinition(true, CommonProfile), Some("java.lang.String#")), CommonProfile)
  {
    var name := "java.lang.String";
    RegistryNamesUnseparated(name);
    RestoreNonProfileClass(ProfileDefinition(true, CommonProfile), name, "");
    assert name + [SEPARATOR] + "" == "java.lang.String#";
  }
}
