/** What the remote schema registry answers, as far as the controller looks at it, and the
    conversions the controller applies to those answers before storing them (src/app.rs).
    The registry client and its GraphQL types are not part of this model: a `Provider`
    stands for them. */
module Fetch {
  import opened Wrappers

  /** The list-projects reply: the `slug` of every project edge, which may be absent. */
  datatype OrgData = OrgData(projectSlugs: seq<Option<string>>)

  /** The targets-by-project reply: `project_targets` may be absent altogether. */
  datatype ProjectData = ProjectData(projectTargets: Option<seq<string>>)

  /** One schema of a version: the service it belongs to and its SDL, which may be absent. */
  datatype SchemaNode = SchemaNode(service: string, source: Option<string>)

  datatype LatestVersion = LatestVersion(supergraph: Option<string>, schemas: seq<SchemaNode>)

  /** The services-by-target reply: a target may have no version yet. */
  datatype VersionData = VersionData(latestVersion: Option<LatestVersion>)

  /** The three remote calls. Each answer depends only on the call's arguments; a `Failure`
      carries the text of the error, whether building the client or the request failed. */
  datatype Provider = Provider(
    listProjects: () -> Result<OrgData, string>,
    targetsByProject: string -> Result<ProjectData, string>,
    servicesByTarget: (string, string) -> Result<VersionData, string>)

  /** The project slugs that are present, in reply order (`filter_map`). */
  function ProjectSlugs(slugs: seq<Option<string>>): (r: seq<string>)
    ensures |r| <= |slugs|
    ensures forall x :: x in r <==> Some(x) in slugs
    ensures (forall i :: 0 <= i < |slugs| ==> slugs[i].Some?) ==>
              |r| == |slugs| && forall i :: 0 <= i < |r| ==> slugs[i] == Some(r[i])
  {
    if slugs == [] then []
    else
      var rest := ProjectSlugs(slugs[1..]);
      assert forall x :: Some(x) in slugs <==> Some(x) == slugs[0] || Some(x) in slugs[1..];
      match slugs[0]
      case Some(x) => [x] + rest
      case None => rest
  }

  /** Dropping absent slugs commutes with concatenation, so the order of the reply is kept. */
  lemma {:induction false} ProjectSlugsAppend(a: seq<Option<string>>, b: seq<Option<string>>)
    ensures ProjectSlugs(a + b) == ProjectSlugs(a) + ProjectSlugs(b)
    decreases |a|
  {
    if a != [] {
      assert (a + b)[1..] == a[1..] + b;
      ProjectSlugsAppend(a[1..], b);
    } else {
      assert a + b == b;
    }
  }

  /** The target slugs, or none when the project reports no target list. */
  function TargetSlugs(d: ProjectData): (r: seq<string>)
    ensures d.projectTargets.None? ==> r == []
    ensures d.projectTargets.Some? ==> r == d.projectTargets.value
  {
    d.projectTargets.GetOr([])
  }

  /** `(service, SDL)` per schema, in reply order; an absent SDL becomes the empty text. */
  function SubgraphEntries(schemas: seq<SchemaNode>): (r: seq<(string, string)>)
    ensures |r| == |schemas|
    ensures forall i :: 0 <= i < |r| ==> r[i].0 == schemas[i].service
    ensures forall i :: 0 <= i < |r| ==>
              r[i].1 == if schemas[i].source.Some? then schemas[i].source.value else ""
  {
    seq(|schemas|, i requires 0 <= i < |schemas| => (schemas[i].service, schemas[i].source.GetOr("")))
  }

  /** The service name of every schema, in reply order. */
  function ServiceNames(schemas: seq<SchemaNode>): (r: seq<string>)
    ensures |r| == |schemas|
    ensures forall i :: 0 <= i < |r| ==> r[i] == schemas[i].service
  {
    seq(|schemas|, i requires 0 <= i < |schemas| => schemas[i].service)
  }

  /** The names of a list of `(service, SDL)` entries. */
  function EntryNames(entries: seq<(string, string)>): (r: seq<string>)
    ensures |r| == |entries|
  {
    seq(|entries|, i requires 0 <= i < |entries| => entries[i].0)
  }

  /** The services list and the subgraph entries are built from the same reply, so the
      services are exactly the entries' names in the same order, and every entry's SDL is
      the schema's source or the empty text. */
  lemma ServicesMatchEntries(schemas: seq<SchemaNode>)
    ensures ServiceNames(schemas) == EntryNames(SubgraphEntries(schemas))
    ensures forall i :: 0 <= i < |schemas| ==>
              (schemas[i].source.Some? ==> SubgraphEntries(schemas)[i].1 == schemas[i].source.value)
              && (schemas[i].source.None? ==> SubgraphEntries(schemas)[i].1 == "")
  {
  }
}
