/**
 * The connector-selection validator `initRegionalBluelink`.
 *
 * A configuration is accepted only when its manufacturer, lower-cased, is
 * `hyundai` and its region is exactly `usa`; the manufacturer is checked
 * first. An accepted configuration is handed, together with the
 * `refreshAuth` flag, to the United States connector's `init`, whose body is
 * not part of this model: it is a parameter of the validator, and the
 * validator's result on success is exactly what that function returns.
 */
module Bluelink {
  import opened Wrappers

  /** The credentials part of a configuration. */
  datatype Auth = Auth(region: string, username: string, password: string, pin: string)

  /** The configuration handed to the validator. */
  datatype Config = Config(manufacturer: string, auth: Auth, distanceUnit: string)

  /** The two errors the validator throws, each carrying the offending value. */
  datatype InitError =
    | UnsupportedManufacturer(manufacturer: string)
    | UnsupportedRegion(region: string)

  const SupportedManufacturer := "hyundai"
  const SupportedRegion := "usa"

  /** Lower-cases one character; only the ASCII letters A-Z are affected. */
  function LowerChar(c: char): char {
    if 'A' <= c <= 'Z' then (c as int + 32) as char else c
  }

  /** `String.prototype.toLowerCase`, restricted to ASCII letters. */
  function ToLowerAscii(s: string): (r: string)
    ensures |r| == |s|
    ensures forall i :: 0 <= i < |s| ==> r[i] == LowerChar(s[i])
  {
    if s == [] then [] else [LowerChar(s[0])] + ToLowerAscii(s[1..])
  }

  /** Two strings that differ at most in the case of their ASCII letters. */
  predicate EqualsIgnoringCase(a: string, b: string) {
    |a| == |b| && forall i :: 0 <= i < |a| ==> LowerChar(a[i]) == LowerChar(b[i])
  }

  /** The manufacturer guard of the validator. */
  predicate ManufacturerSupported(manufacturer: string) {
    ToLowerAscii(manufacturer) == SupportedManufacturer
  }

  /** The region guard of the validator: an exact comparison. */
  predicate RegionSupported(region: string) {
    region == SupportedRegion
  }

  /** The message of the error the validator throws. */
  function ErrorMessage(e: InitError): (m: string)
    ensures e.UnsupportedManufacturer? ==>
      |e.manufacturer| <= |m| && m[..|e.manufacturer|] == e.manufacturer && m[|e.manufacturer|..] == " is not supported"
    ensures e.UnsupportedRegion? ==>
      |e.region| <= |m| && m[..|e.region|] == e.region && m[|e.region|..] == " region is not supported"
  {
    match e
    case UnsupportedManufacturer(manufacturer) => manufacturer + " is not supported"
    case UnsupportedRegion(region) => region + " region is not supported"
  }

  /**
   * `initRegionalBluelink(config, refreshAuth = true)`: the manufacturer guard,
   * then the region guard, then the hand-off to `usaInit`.
   */
  function InitRegionalBluelink<C>(usaInit: (Config, bool) -> C, config: Config, refreshAuth: bool := true)
    : (r: Result<C, InitError>)
    ensures r.Success? <==> ManufacturerSupported(config.manufacturer) && config.auth.region == "usa"
    ensures r.Success? ==> r.value == usaInit(config, refreshAuth)
    ensures !ManufacturerSupported(config.manufacturer) ==>
      r == Failure(UnsupportedManufacturer(config.manufacturer))
    ensures ManufacturerSupported(config.manufacturer) && config.auth.region != "usa" ==>
      r == Failure(UnsupportedRegion(config.auth.region))
  {
    if !ManufacturerSupported(config.manufacturer) then
      Failure(UnsupportedManufacturer(config.manufacturer))
    else if !RegionSupported(config.auth.region) then
      Failure(UnsupportedRegion(config.auth.region))
    else
      Success(usaInit(config, refreshAuth))
  }

  /** Lower-casing leaves an already lower-case string unchanged. */
  lemma LowerSupportedIsFixed()
    ensures ToLowerAscii(SupportedManufacturer) == SupportedManufacturer
  {
  }

  /**
   * The manufacturer guard ignores case: it accepts exactly the strings equal
   * to `hyundai` up to the case of their ASCII letters.
   */
  lemma ManufacturerIgnoresCase(manufacturer: string)
    ensures ManufacturerSupported(manufacturer) <==> EqualsIgnoringCase(manufacturer, SupportedManufacturer)
  {
  }

  /** `Hyundai` and `HYUNDAI` pass the manufacturer guard; `USA` fails the region guard. */
  lemma CaseExamples()
    ensures ManufacturerSupported("Hyundai") && ManufacturerSupported("HYUNDAI")
    ensures !ManufacturerSupported("Kia") && !ManufacturerSupported("hyundai ")
    ensures RegionSupported("usa") && !RegionSupported("USA") && !RegionSupported("Usa")
  {
  }

  /**
   * The manufacturer guard comes first: when both manufacturer and region are
   * unsupported, the manufacturer error is reported and `usaInit` is not used.
   */
  lemma ManufacturerErrorFirst<C>(usaInit: (Config, bool) -> C, config: Config, refreshAuth: bool)
    requires !ManufacturerSupported(config.manufacturer)
    ensures InitRegionalBluelink(usaInit, config, refreshAuth) == Failure(UnsupportedManufacturer(config.manufacturer))
    ensures ErrorMessage(InitRegionalBluelink(usaInit, config, refreshAuth).error)
      == config.manufacturer + " is not supported"
  {
  }

  /**
   * The result does not depend on the case of the manufacturer: two
   * configurations that differ only there are validated alike.
   */
  lemma ManufacturerCaseIrrelevant<C>(usaInit: (Config, bool) -> C, config: Config, other: string, refreshAuth: bool)
    requires EqualsIgnoringCase(config.manufacturer, other)
    ensures InitRegionalBluelink(usaInit, config, refreshAuth).Success?
        == InitRegionalBluelink(usaInit, config.(manufacturer := other), refreshAuth).Success?
  {
  }

  /** `refreshAuth` defaults to true and is passed to `usaInit` unchanged. */
  lemma RefreshAuthDefaultsToTrue<C>(usaInit: (Config, bool) -> C, config: Config)
    requires ManufacturerSupported(config.manufacturer) && config.auth.region == "usa"
    ensures InitRegionalBluelink(usaInit, config) == Success(usaInit(config, true))
  {
  }
}
