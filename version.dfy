/** Version selection (config/version.go). The link-time `Version` variable
    and the result of `debug.ReadBuildInfo` are passed in. */
module Version {
  import opened Wrappers

  datatype Module = Module(path: string, version: string)
  datatype BuildInfo = BuildInfo(main: Module)

  const Unknown: string := "unknown"

  /** `GetVersion`: the link-time version if set, else the main module's
      version from the build information if there is any, else "unknown". */
  function GetVersion(ldflagsVersion: string, buildInfo: Option<BuildInfo>): (v: string)
    ensures ldflagsVersion != "" ==> v == ldflagsVersion
    ensures ldflagsVersion == "" && buildInfo.Some? ==> v == buildInfo.value.main.version
    ensures ldflagsVersion == "" && buildInfo.None? ==> v == Unknown
  {
    if ldflagsVersion != "" then ldflagsVersion
    else match buildInfo
      case Some(info) => info.main.version
      case None => Unknown
  }

  /** The build information is not consulted when the link-time version is set. */
  lemma LinkedVersionIgnoresBuildInfo(ldflagsVersion: string, b1: Option<BuildInfo>, b2: Option<BuildInfo>)
    requires ldflagsVersion != ""
    ensures GetVersion(ldflagsVersion, b1) == GetVersion(ldflagsVersion, b2)
  {
  }

  /** The version is empty only when nothing was linked in and the build
      information reports an empty main-module version. */
  lemma EmptyVersionIff(ldflagsVersion: string, buildInfo: Option<BuildInfo>)
    ensures GetVersion(ldflagsVersion, buildInfo) == "" <==>
      ldflagsVersion == "" && buildInfo.Some? && buildInfo.value.main.version == ""
  {
  }
}
