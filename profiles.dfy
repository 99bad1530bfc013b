/**
 * The interface of the profile collaborator (profiles.New and its
 * configuration names). Its implementation is not part of this model: a
 * caller supplies the configuration key names, the default profile and the
 * function that yields a profile's check list for a vendor type and version.
 */
module Profiles {

  import opened ReportTypes

  /** One check of a profile and whether the profile makes it mandatory. */
  datatype ProfileCheck = ProfileCheck(name: string, checkType: CheckType)

  datatype ProfileSource = ProfileSource(
    vendorTypeKey: string,      // profiles.VendorTypeConfigName
    versionKey: string,         // profiles.VersionConfigName
    defaultVendorType: string,  // profiles.DefaultProfile
    defaultVersion: string,     // profiles.DefaultProfileVersion
    checksOf: (string, string) -> seq<ProfileCheck>)  // profiles.New(...).Checks

  /** How many checks of the list are mandatory. */
  function CountMandatory(checks: seq<ProfileCheck>): nat
  {
    if checks == [] then 0
    else CountMandatory(checks[..|checks| - 1]) + (if checks[|checks| - 1].checkType == Mandatory then 1 else 0)
  }
}
