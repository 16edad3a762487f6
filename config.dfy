/**
 * The configuration records of the deployment: the values read from the
 * environment, the values read from the configuration file, the name of the
 * deployment archive, and the parser of boolean flags.
 *
 * Reading environment variables and decoding the configuration file are not
 * part of this model; the records are taken as given values.
 */
module Config {
  import opened Wrappers
  import Dockerrun

  /** The settings that come from environment variables. */
  datatype ConfigFromEnv = ConfigFromEnv(
    versionLabel: string,
    versionDescription: string,
    waitForDeployment: bool,
    basePath: string)

  /** The settings that come from the configuration file. */
  datatype ConfigFromFile = ConfigFromFile(
    buildAndUploadImage: bool,
    applicationName: string,
    environmentName: string,
    applicationVersionBucket: string,
    containers: seq<Dockerrun.ContainerConfig>)

  const ArchivePrefix: string := "deploy-"
  const ArchiveSuffix: string := ".zip"

  /**
   * The file name (and storage key) of the deployment archive: the version
   * label between the prefix "deploy-" and the suffix ".zip".
   */
  function DeploymentArchive(env: ConfigFromEnv): (r: string)
    ensures |r| == |env.versionLabel| + 11
    ensures r[..7] == "deploy-"
    ensures r[7..|r| - 4] == env.versionLabel
    ensures r[|r| - 4..] == ".zip"
  {
    ArchivePrefix + env.versionLabel + ArchiveSuffix
  }

  /**
   * The version label an archive name was made from, or None when the name
   * does not have the archive's shape: the partner of DeploymentArchive.
   */
  function ArchiveLabel(name: string): (r: Option<string>)
    ensures r.Some? ==> |r.value| + 11 == |name|
  {
    if |name| >= 11 && name[..7] == ArchivePrefix && name[|name| - 4..] == ArchiveSuffix
    then Some(name[7..|name| - 4])
    else None
  }

  /** Round trip: the archive name gives back its version label. */
  lemma ArchiveLabelOfDeploymentArchive(env: ConfigFromEnv)
    ensures ArchiveLabel(DeploymentArchive(env)) == Some(env.versionLabel)
  {
  }

  /** Converse round trip: a name with the archive's shape is the archive of its label. */
  lemma DeploymentArchiveOfLabel(env: ConfigFromEnv, name: string)
    requires ArchiveLabel(name) == Some(env.versionLabel)
    ensures DeploymentArchive(env) == name
  {
    assert name == name[..7] + name[7..|name| - 4] + name[|name| - 4..];
  }

  /** The strings a boolean flag reads as false; every other string reads as true. */
  const FalseSpellings: set<string> := {"", "0", "False", "false"}

  /** Parses a boolean flag from the value of an environment variable. */
  function CheckBool(value: string): (r: bool)
    ensures !r <==> value == "" || value == "0" || value == "False" || value == "false"
  {
    value !in FalseSpellings
  }

  /**
   * The parser is not case-insensitive and knows no "no"/"off" spelling:
   * everything outside the four false spellings is true.
   */
  lemma CheckBoolExamples()
    ensures !CheckBool("") && !CheckBool("0") && !CheckBool("False") && !CheckBool("false")
    ensures CheckBool("true") && CheckBool("True") && CheckBool("1")
    ensures CheckBool("FALSE") && CheckBool("no") && CheckBool("off") && CheckBool(" ")
  {
  }

  /**
   * The archive name and the manifest that a run deploys, both made from the
   * two configuration records: the archive carries the version label in its
   * name, and every container's image is tagged with that same label.
   */
  function DeploymentBundle(env: ConfigFromEnv, file: ConfigFromFile): (r: (string, Dockerrun.Manifest))
    ensures ArchiveLabel(r.0) == Some(env.versionLabel)
    ensures |r.1.containerDefinitions| == |file.containers|
    ensures forall i :: 0 <= i < |file.containers| ==>
      r.1.containerDefinitions[i].name == file.containers[i].name &&
      Dockerrun.TagOf(file.containers[i].imageBaseName, r.1.containerDefinitions[i].image) == Some(env.versionLabel)
  {
    ArchiveLabelOfDeploymentArchive(env);
    (DeploymentArchive(env), Dockerrun.PrepareDockerrunFile(file.containers, env.versionLabel))
  }
}
