/** The repository's own routing table, as the planner consults it. */
module GateRoutes {
  import opened GatePlan

  predicate Starts(path: string, prefix: string) { prefix <= path }

  predicate Ends(path: string, suffix: string) {
    |suffix| <= |path| && path[|path| - |suffix|..] == suffix
  }

  predicate Docs(path: string) {
    Starts(path, "docs/") || Ends(path, ".md")
  }

  predicate FullRoot(path: string) {
    || path == "Cargo.toml" || path == "Cargo.lock" || path == "rust-toolchain.toml"
    || path == ".github/workflows/quality-gate.yml" || path == "scripts/ci/quality-gate-plan.py"
    || Starts(path, ".github/actions/install-rust/") || Starts(path, ".github/actions/install-coverage/")
    || Starts(path, ".github/actions/upload-coverage/")
    || path == "scripts/ci/install-protoc.sh" || path == "scripts/ci/install-rust-toolchain.sh"
  }

  predicate Manifest(path: string) { Ends(path, "/Cargo.toml") }

  predicate Contract(path: string) {
    Starts(path, "crates/kmp-proto/proto/") || Starts(path, "crates/kmp-mcp/fixtures/kernel/v1beta1/kmp/")
  }

  /** Packages whose being affected turns a gate on. */
  function Triggers(gate: Gate): set<string> {
    match gate
    case Valkey => {"kmp-adapter-valkey"}
    case Neo4j => {"kmp-adapter-neo4j"}
    case Nats => {"kmp-adapter-nats"}
    case EmbeddedBinary => {"kmp-mcp", "kmp-embedded"}
    case EmbeddedSqlite => {"kmp-adapter-embedded", "kmp-conformance", "kmp-embedded", "kmp-mcp"}
    case Conformance => {"kmp-tests-kernel"}
    case AgenticContext => {"kmp-tests-kernel"}
    case AgenticEventContext => {"kmp-tests-kernel"}
    case FullJourney => {"kmp-tests-kernel"}
    case McpReal => {"kmp-tests-kernel"}
    case Container => {"kmp-server", "kmp-mcp-http", "kmp-transport-grpc"}
    case _ => {}
  }

  /** The first rule that names the path decides. */
  function Route(path: string): GatePlan.Route {
    if Starts(path, "api/") then ToGates({Vendored, CodeQl})
    else if Starts(path, ".github/") then ToGates({Actions, CodeQl})
    else if Starts(path, "plugins/kmp/") || Starts(path, "tests/plugin/") || Starts(path, "scripts/plugin/") then ToGates({})
    else if Starts(path, "distribution/charts/") then ToGates({Helm})
    else if Starts(path, "distribution/mcpb/") then ToGates({Actions})
    else if Starts(path, "distribution/lexical-bridge/") then ToGates({Rust})
    else if path == "Dockerfile" || path == ".dockerignore" || Starts(path, "e2e/") then ToGates({Container})
    else if path == "server.json" || path == "scripts/release.sh" || Starts(path, "scripts/release/") then ToGates({Actions, Publish})
    else if path == "scripts/ci/check-vendored-contract.sh" then ToGates({Vendored})
    else if path == "scripts/ci/check-publish-chain.sh" || path == "scripts/ci/publish-crates.sh" then ToGates({Publish})
    else if path == "scripts/ci/github-actions-contract.py" || path == "scripts/ci/publish-workflow-contract.py" then ToGates({Actions})
    else if Docs(path) then ToGates({})
    else RouteScript(path)
  }

  function RouteScript(path: string): GatePlan.Route {
    if path == "scripts/ci/integration-valkey.sh" then ToGates({Valkey})
    else if path == "scripts/ci/integration-neo4j.sh" then ToGates({Neo4j})
    else if path == "scripts/ci/integration-nats.sh" then ToGates({Nats})
    else if path == "scripts/ci/integration-conformance.sh" then ToGates({Conformance})
    else if path == "scripts/ci/integration-agentic-context.sh" then ToGates({AgenticContext})
    else if path == "scripts/ci/integration-agentic-event-context.sh" then ToGates({AgenticEventContext})
    else if path == "scripts/ci/integration-kernel-full-journey.sh" || path == "scripts/ci/integration-kernel-full-journey-tls.sh"
    then ToGates({FullJourney})
    else if path == "scripts/ci/integration-mcp-real-kernel.sh" then ToGates({McpReal})
    else if path == "scripts/ci/embedded-binary-gates.sh" then ToGates({EmbeddedBinary})
    else if path == "scripts/ci/embedded-sqlite-gates.sh" then ToGates({EmbeddedSqlite})
    else if path == "scripts/ci/container-image.sh" then ToGates({Container})
    else if path == "scripts/ci/helm-lint.sh" || path == "scripts/ci/install-helm.sh" then ToGates({Helm})
    else if path == "scripts/ci/coverage-test.sh" || path == "scripts/ci/export-coverage-fragment.sh"
            || path == "scripts/ci/merge-coverage.py" || path == "scripts/ci/quality-workflow-contract.py"
            || path == "scripts/ci/rust-coverage.sh" || path == "scripts/ci/testcontainers-runtime.sh"
    then ToFull
    else if Starts(path, "scripts/docs/") || Starts(path, "docs/assets/") then ToGates({})
    else if Starts(path, "scripts/mcp/") || Starts(path, "scripts/install/") then ToGates({EmbeddedBinary})
    else if Starts(path, "scripts/e2e/") then ToGates({Rust, CodeQl})
    else if Starts(path, "scripts/ci/kmp-") || Starts(path, "scripts/ci/pitch-") then ToGates({CodeQl})
    else if Starts(path, ".kmp/") || Starts(path, ".kernel/") then ToGates({})
    else if path == ".gitignore" || path == ".gitattributes" || path == "LICENSE" || path == "NOTICE" then ToGates({})
    else GatePlan.Unknown
  }

  /** The planner over this repository's packages. */
  method PlanRepository(packages: map<string, string>, dependencies: Graph, paths: seq<string>, forceFull: bool) returns (plan: Plan)
    ensures forceFull || paths == [] ==> plan == FullPlan(Repository(packages, dependencies))
    ensures !forceFull && paths != [] ==> Plans(Repository(packages, dependencies), Normalized(paths), plan)
  {
    plan := PlanFor(Repository(packages, dependencies), paths, forceFull);
  }

  function Repository(packages: map<string, string>, dependencies: Graph): Workspace {
    Workspace(packages, dependencies, FullRoot, Docs, Route, Manifest, Contract, Triggers)
  }
}
