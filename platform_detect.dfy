/**
 * Platform detection (src/platform/detect.ts). The browser probes become an
 * explicit environment: whether `window` exists, the names of the globals
 * defined on it, and the user-agent string.
 */
module Detect {
  import opened Strings

  datatype Platform = Tizen | WebOS | Hisense | Generic

  datatype Environment = Environment(hasWindow: bool, windowGlobals: set<string>, userAgent: string)

  predicate IsTizen(env: Environment) {
    env.hasWindow && "tizen" in env.windowGlobals
  }

  predicate IsWebOS(env: Environment) {
    env.hasWindow && "webOS" in env.windowGlobals
  }

  /** The lower-cased user agent names Hisense or VIDAA, or a `HISENSE` global exists. */
  predicate IsHisense(env: Environment) {
    var ua := ToLower(env.userAgent);
    Contains(ua, "hisense") || Contains(ua, "vidaa") || (env.hasWindow && "HISENSE" in env.windowGlobals)
  }

  /** The first probe that holds, in the order Tizen, webOS, Hisense; Generic when none does. */
  function DetectPlatform(env: Environment): (p: Platform)
    ensures p == Tizen <==> IsTizen(env)
    ensures p == WebOS <==> !IsTizen(env) && IsWebOS(env)
    ensures p == Hisense <==> !IsTizen(env) && !IsWebOS(env) && IsHisense(env)
    ensures p == Generic <==> !IsTizen(env) && !IsWebOS(env) && !IsHisense(env)
  {
    if IsTizen(env) then Tizen
    else if IsWebOS(env) then WebOS
    else if IsHisense(env) then Hisense
    else Generic
  }

  function PlatformName(p: Platform): string {
    match p
    case Tizen => "Samsung Tizen"
    case WebOS => "LG webOS"
    case Hisense => "Hisense VIDAA"
    case Generic => "Generic TV"
  }

  /** `getPlatformName()`: the display name of the detected platform. */
  function GetPlatformName(env: Environment): string {
    PlatformName(DetectPlatform(env))
  }

  /** The four platforms have four different display names. */
  lemma PlatformNamesDistinct(p: Platform, q: Platform)
    ensures PlatformName(p) == PlatformName(q) ==> p == q
  {
  }

  /** A Tizen global decides the platform whatever the other probes say. */
  lemma TizenWins(env: Environment, globals: set<string>, ua: string)
    requires IsTizen(env)
    ensures DetectPlatform(env.(windowGlobals := env.windowGlobals + globals, userAgent := ua)) == Tizen
  {
  }

  /**
   * The user-agent match ignores case: any spelling of "hisense" in the user
   * agent, in any mix of upper and lower case, makes the device a Hisense one.
   */
  lemma HisenseMatchIgnoresCase(env: Environment, k: nat)
    requires k + 7 <= |env.userAgent|
    requires ToLower(env.userAgent[k..k + 7]) == "hisense"
    ensures IsHisense(env)
  {
    ToLowerSlice(env.userAgent, k, k + 7);
    ContainsOccurs(ToLower(env.userAgent), "hisense", k);
  }

  /** Lower-casing the user agent first changes nothing. */
  lemma HisenseOnLowered(env: Environment)
    ensures IsHisense(env) == IsHisense(env.(userAgent := ToLower(env.userAgent)))
  {
    ToLowerIdempotent(env.userAgent);
  }

  /** Without a window only the user agent can name a platform, and only Hisense. */
  lemma NoWindowMeansHisenseOrGeneric(env: Environment)
    requires !env.hasWindow
    ensures DetectPlatform(env) == Hisense || DetectPlatform(env) == Generic
  {
  }
}
