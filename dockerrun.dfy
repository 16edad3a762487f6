/**
 * The container configuration records and the Elastic Beanstalk multicontainer
 * `Dockerrun.aws.json` (version 2) manifest built from them.
 *
 * The manifest is modelled as a value; its JSON text and the zip archive that
 * carries it are not part of this model.
 */
module Dockerrun {
  import opened Wrappers

  /** A host port published as a container port. */
  datatype PortMapping = PortMapping(host: int, container: int)

  /**
   * One container of the deployment. `memory` and `links` are optional in the
   * configuration file and default to 1024 and to no links.
   */
  datatype ContainerConfig = ContainerConfig(
    name: string,
    dockerfile: string,
    imageBaseName: string,
    ports: seq<PortMapping>,
    memory: int := 1024,
    links: seq<string> := [])

  /** The manifest's version number: always 2 (the multicontainer format). */
  const DockerrunVersion: int := 2

  /**
   * An entry of a definition's `environment` list. The list is always empty
   * in the manifest built here, so the shape of its entries is not modelled.
   */
  datatype EnvironmentVariable = EnvironmentVariable

  /**
   * An entry of the manifest's `volumes` list. The list is always empty in the
   * manifest built here, so the shape of its entries is not modelled.
   */
  datatype Volume = Volume

  /** One element of a definition's `portMappings` list. */
  datatype PortMappingEntry = PortMappingEntry(hostPort: int, containerPort: int)

  /** One element of the manifest's `containerDefinitions` list. */
  datatype ContainerDefinition = ContainerDefinition(
    name: string,
    image: string,
    environment: seq<EnvironmentVariable>,
    essential: bool,
    links: seq<string>,
    memoryReservation: int,
    portMappings: seq<PortMappingEntry>)

  /** The whole `Dockerrun.aws.json` document. */
  datatype Manifest = Manifest(
    awsebDockerrunVersion: int,
    volumes: seq<Volume>,
    containerDefinitions: seq<ContainerDefinition>)

  /** Lemma: a container configured without memory or links gets the defaults. */
  lemma ContainerDefaults(name: string, dockerfile: string, base: string, ports: seq<PortMapping>)
    ensures ContainerConfig(name, dockerfile, base, ports).memory == 1024
    ensures ContainerConfig(name, dockerfile, base, ports).links == []
  {
  }

  /**
   * The image reference of a container for a version: the base name, a colon,
   * then the version as the tag.
   */
  function ImageUrl(c: ContainerConfig, version: string): (r: string)
    ensures |r| == |c.imageBaseName| + 1 + |version|
    ensures r[..|c.imageBaseName|] == c.imageBaseName
    ensures r[|c.imageBaseName|] == ':'
    ensures r[|c.imageBaseName| + 1..] == version
  {
    c.imageBaseName + ":" + version
  }

  /**
   * The version tag of `url` when `url` is an image reference of the image
   * `base`, and None otherwise: the partner of ImageUrl.
   */
  function TagOf(base: string, url: string): (r: Option<string>)
    ensures r.Some? ==> |url| == |base| + 1 + |r.value|
  {
    if |url| > |base| && url[..|base|] == base && url[|base|] == ':'
    then Some(url[|base| + 1..])
    else None
  }

  /** Round trip: the tag of an image reference is the version it was built from. */
  lemma TagOfImageUrl(c: ContainerConfig, version: string)
    ensures TagOf(c.imageBaseName, ImageUrl(c, version)) == Some(version)
  {
  }

  /** Converse round trip: a reference with a tag is the image reference of that tag. */
  lemma ImageUrlOfTag(c: ContainerConfig, url: string)
    requires TagOf(c.imageBaseName, url).Some?
    ensures ImageUrl(c, TagOf(c.imageBaseName, url).value) == url
  {
    var base := c.imageBaseName;
    assert url == url[..|base|] + [url[|base|]] + url[|base| + 1..];
  }

  /** Two versions give the same image reference of one container only if they are equal. */
  lemma {:induction false} ImageUrlInjective(c: ContainerConfig, v1: string, v2: string)
    requires ImageUrl(c, v1) == ImageUrl(c, v2)
    ensures v1 == v2
  {
    TagOfImageUrl(c, v1);
    TagOfImageUrl(c, v2);
  }

  /** The manifest entry of one port mapping. */
  function PortEntry(p: PortMapping): PortMappingEntry
  {
    PortMappingEntry(p.host, p.container)
  }

  /** The `portMappings` list of a container: one entry per port, in order. */
  function PortMappings(ports: seq<PortMapping>): (r: seq<PortMappingEntry>)
    ensures |r| == |ports|
    ensures forall i :: 0 <= i < |ports| ==>
      r[i].hostPort == ports[i].host && r[i].containerPort == ports[i].container
  {
    if ports == [] then [] else [PortEntry(ports[0])] + PortMappings(ports[1..])
  }

  /** The ports a `portMappings` list publishes: the partner of PortMappings. */
  function PortsOf(entries: seq<PortMappingEntry>): (r: seq<PortMapping>)
    ensures |r| == |entries|
    ensures forall i :: 0 <= i < |entries| ==>
      r[i] == PortMapping(entries[i].hostPort, entries[i].containerPort)
  {
    if entries == [] then [] else [PortMapping(entries[0].hostPort, entries[0].containerPort)] + PortsOf(entries[1..])
  }

  /** Round trip: the port mappings of a container give back its ports. */
  lemma {:induction false} PortsOfPortMappings(ports: seq<PortMapping>)
    ensures PortsOf(PortMappings(ports)) == ports
  {
    if ports != [] {
      PortsOfPortMappings(ports[1..]);
      assert PortMappings(ports)[1..] == PortMappings(ports[1..]);
    }
  }

  /** Converse round trip: every `portMappings` list is the one of the ports it publishes. */
  lemma {:induction false} PortMappingsOfPortsOf(entries: seq<PortMappingEntry>)
    ensures PortMappings(PortsOf(entries)) == entries
  {
    if entries != [] {
      PortMappingsOfPortsOf(entries[1..]);
      assert PortsOf(entries)[1..] == PortsOf(entries[1..]);
    }
  }

  /** The `containerDefinitions` entry of one container for a version. */
  function Definition(c: ContainerConfig, version: string): ContainerDefinition
  {
    ContainerDefinition(
      name := c.name,
      image := ImageUrl(c, version),
      environment := [],
      essential := true,
      links := c.links,
      memoryReservation := c.memory,
      portMappings := PortMappings(c.ports))
  }

  /** The `containerDefinitions` list: one definition per container, in order. */
  function Definitions(containers: seq<ContainerConfig>, version: string): (r: seq<ContainerDefinition>)
    ensures |r| == |containers|
    ensures forall i :: 0 <= i < |containers| ==>
      r[i].name == containers[i].name &&
      r[i].image == ImageUrl(containers[i], version) &&
      r[i].environment == [] &&
      r[i].essential &&
      r[i].links == containers[i].links &&
      r[i].memoryReservation == containers[i].memory &&
      r[i].portMappings == PortMappings(containers[i].ports)
  {
    if containers == [] then []
    else [Definition(containers[0], version)] + Definitions(containers[1..], version)
  }

  /** Each definition gives back its container's image tag and ports. */
  lemma DefinitionsRecoverable(containers: seq<ContainerConfig>, version: string)
    ensures forall i :: 0 <= i < |containers| ==>
      TagOf(containers[i].imageBaseName, Definitions(containers, version)[i].image) == Some(version) &&
      PortsOf(Definitions(containers, version)[i].portMappings) == containers[i].ports
  {
    forall i | 0 <= i < |containers|
      ensures TagOf(containers[i].imageBaseName, Definitions(containers, version)[i].image) == Some(version)
      ensures PortsOf(Definitions(containers, version)[i].portMappings) == containers[i].ports
    {
      TagOfImageUrl(containers[i], version);
      PortsOfPortMappings(containers[i].ports);
    }
  }

  /**
   * The manifest for deploying `containers` at `version`: format version 2,
   * no volumes, and the container definitions in the order of the containers.
   */
  function PrepareDockerrunFile(containers: seq<ContainerConfig>, version: string): (r: Manifest)
    ensures r.awsebDockerrunVersion == 2
    ensures r.volumes == []
    ensures |r.containerDefinitions| == |containers|
    ensures forall i :: 0 <= i < |containers| ==>
      var d := r.containerDefinitions[i];
      d.name == containers[i].name &&
      TagOf(containers[i].imageBaseName, d.image) == Some(version) &&
      d.environment == [] &&
      d.essential &&
      d.links == containers[i].links &&
      d.memoryReservation == containers[i].memory &&
      PortsOf(d.portMappings) == containers[i].ports
  {
    var defs := Definitions(containers, version);
    DefinitionsRecoverable(containers, version);
    Manifest(DockerrunVersion, [], defs)
  }

  /**
   * The definitions of a concatenation of container lists are the first
   * list's definitions followed by the second's.
   */
  lemma {:induction false} DefinitionsAppend(a: seq<ContainerConfig>, b: seq<ContainerConfig>, version: string)
    ensures Definitions(a + b, version) == Definitions(a, version) + Definitions(b, version)
  {
    if a == [] {
      assert a + b == b;
    } else {
      var head := [Definition(a[0], version)];
      assert (a + b)[0] == a[0];
      assert (a + b)[1..] == a[1..] + b;
      calc {
        Definitions(a + b, version);
        head + Definitions(a[1..] + b, version);
        { DefinitionsAppend(a[1..], b, version); }
        head + (Definitions(a[1..], version) + Definitions(b, version));
        (head + Definitions(a[1..], version)) + Definitions(b, version);
        Definitions(a, version) + Definitions(b, version);
      }
    }
  }
}
