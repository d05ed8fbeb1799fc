/** The static runner registry: which image, mount target, command and
    resource limit each runtime identifier uses. */
module Model {
  import opened GoTypes

  /** A per-runtime resource limit. `cpu` is in units of 10^7 nanoCPUs
      (a hundredth of a core, as the handler multiplies it out); `mem` is in
      megabytes. */
  datatype ResourceLimit = ResourceLimit(cpu: Int64, mem: Int64)

  /** How one runtime's code is run: the image, the in-container path the
      staged source is mounted at, a code template shown to clients, the
      container command and an optional (nil-able) limit. */
  datatype DockerImage = DockerImage(
    image: string,
    target: string,
    template: string,
    cmd: seq<string>,
    limit: Option<ResourceLimit>)

  const GolangLatest: string := "golang-latest"

  /** An entry the handler can run: a named image, a command to launch and a
      resource limit to apply. */
  predicate Runnable(d: DockerImage) {
    |d.image| > 0 && |d.cmd| > 0 && d.limit.Some?
  }

  /** The registry. Populated once, read-only afterwards. */
  function Runners(): (m: map<string, DockerImage>)
    ensures m.Keys == {GolangLatest}
    ensures forall id :: id in m ==> Runnable(m[id])
  {
    map[GolangLatest := DockerImage(
      "golang:alpine",
      "/runner/main.go",
      "package main\\nfunc main(){\\nprint(\"hello world!\")}",
      ["sh", "-c", "set -x && cd /runner && go build -o main main.go && ./main"],
      Some(ResourceLimit(10, 50)))]
  }

  /** Registry lookup, the `v, has := Runners[id]` of the handler. */
  function Lookup(id: string): (r: Option<DockerImage>)
    ensures r.Some? <==> id == GolangLatest
    ensures r.Some? ==> Runnable(r.value)
  {
    if id in Runners() then Some(Runners()[id]) else None
  }

  /** The one entry: image, target, a three-word `sh -c` command, and a limit
      of 10 CPU units and 50 MB. */
  lemma GolangLatestEntry()
    ensures GolangLatest in Runners()
    ensures var d := Runners()[GolangLatest];
      && d.image == "golang:alpine"
      && d.target == "/runner/main.go"
      && |d.cmd| == 3 && d.cmd[0] == "sh" && d.cmd[1] == "-c"
      && d.limit == Some(ResourceLimit(10, 50))
  {
  }
}
