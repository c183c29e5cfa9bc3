/** A Rhasspy profile as the generator sees it: settings addressed by dotted
    paths, read with a default, and a function that resolves a relative file
    name against the profile directories.

    The profile's loading, layering and path resolution live outside the
    generator; `readPath` stands for `profile.read_path` and is left
    uninterpreted. */
module Profiles {
  import opened Results
  import opened PyStrings

  /** A setting's value as the profile's JSON gives it. Floats, lists, null
      and dictionaries (other than the snowboy per-model settings, which
      `Profile.modelSettings` holds) are `Other`: the generator only prints
      them with `str()` and tests them for truth, so `text` is Python's
      `str()` of the value and `truthy` is its truth value. */
  datatype Value =
    | Str(s: string)
    | Int(i: int)
    | Bool(b: bool)
    | Other(text: string, truthy: bool)

  /** Python's `str(v)`. */
  function ToStr(v: Value): string
  {
    match v
    case Str(s) => s
    case Int(i) => IntToString(i)
    case Bool(b) => if b then "True" else "False"
    case Other(text, _) => text
  }

  /** Python's `bool(v)`: what `if v:` and `assert v` test. */
  predicate Truthy(v: Value)
  {
    match v
    case Str(s) => s != ""
    case Int(i) => i != 0
    case Bool(b) => b
    case Other(_, truthy) => truthy
  }

  /** Python's `int(v)`; `None` where Python raises `ValueError` or `TypeError`.
      `int(True)` is 1; a string is parsed as decimal. */
  function IntOf(v: Value): Option<int>
  {
    match v
    case Int(i) => Some(i)
    case Bool(b) => Some(if b then 1 else 0)
    case Str(s) => ParseInt(s)
    case Other(_, _) => None
  }

  datatype Profile = Profile(
    /** every setting the profile defines, by dotted path */
    settings: map<string, Value>,
    /** the value at `wake.snowboy.model_settings`: per model name, its settings */
    modelSettings: map<string, map<string, Value>>,
    /** `str(profile.read_path(v))` */
    readPath: Value -> string,
    /** `profile.name` */
    name: string,
    /** `str(profile.system_profiles_dir)` */
    systemProfilesDir: string,
    /** `str(profile.user_profiles_dir)` */
    userProfilesDir: string)

  /** `profile.get(path, default)`. */
  function Get(p: Profile, path: string, default: Value): Value
  {
    if path in p.settings then p.settings[path] else default
  }

  /** `value = profile.get(path); assert value`: the setting must be present
      and truthy. */
  function Required(p: Profile, path: string): Result<Value>
  {
    if path in p.settings && Truthy(p.settings[path]) then Success(p.settings[path])
    else Failure(MissingSetting(path))
  }

  /** `profile.get(path, "").strip()`: a missing setting reads as blank; a
      setting that is not a string has no `strip` method. */
  function StrippedSetting(p: Profile, path: string): Result<string>
  {
    match Get(p, path, Str(""))
    case Str(s) => Success(Strip(s))
    case _ => Failure(WrongType(path))
  }

  /** `str(v)` gives back every integer `int(v)` accepted when `v` is an integer. */
  lemma IntOfToStr(i: int)
    ensures IntOf(Str(ToStr(Int(i)))) == Some(i)
  {
    ParseIntToString(i);
  }
}
