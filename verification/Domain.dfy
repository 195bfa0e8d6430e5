/** The records of the automation service: the `automations` row, its revision log,
    the external world a row's resources live in, and the request payloads. */
module Domain {

  datatype Option<+T> = None | Some(value: T)

  // Identifiers are wrapped so that they compare as atoms.
  datatype Uuid = Uuid(text: string)
  /** A commit id, idealised as the text it hashes: path, per-path revision and content. */
  datatype Sha = Sha(path: string, revision: nat, content: string)
  datatype Wallet = Wallet(name: string)
  datatype Image = Image(reference: string)
  datatype Actor = Actor(email: string)
  datatype ResourceName = ResourceName(text: string)

  /** A build-lock deadline; its only role in the protocol is that of a fencing token. */
  type Deadline = nat

  datatype MatchingState = Inactive | Active | Deleting | Deleted
  {
    predicate InDeletion() { Deleting? || Deleted? }
  }

  datatype BuildState = Idle | Building | BuildFailed

  /** JSON as it arrives in `triggers` and `cooldown_fields`. */
  datatype Json =
    | JNull
    | JBool(b: bool)
    | JNumber(n: int)
    | JString(s: string)
    | JArray(items: seq<Json>)
    | JObject(members: map<string, Json>)

  /** The create/edit payload. */
  datatype AutomationIn = AutomationIn(
    name: string,
    namespace: Wallet,
    script: string,
    triggers: seq<Json>,
    secretName: Option<string>,
    cooldownSeconds: Option<int>,
    cooldownFields: Option<seq<Json>>,
    timeoutSeconds: Option<int>,
    graceSeconds: Option<int>,
    logstashUrl: Option<string>)

  /** The columns only an edit writes, apart from `namespace`. */
  datatype Definition = Definition(
    name: string,
    triggers: seq<Json>,
    secretName: Option<string>,
    cooldownSeconds: Option<int>,
    cooldownFields: Option<seq<Json>>,
    timeoutSeconds: int,
    graceSeconds: int,
    logstashUrl: Option<string>)

  const TIMEOUT_SECONDS_DEFAULT := 300
  const GRACE_SECONDS_DEFAULT := 300

  /** Python's `value or default`: both an absent value and zero give the default. */
  function OrDefault(value: Option<int>, default: int): int {
    if value.None? || value.value == 0 then default else value.value
  }

  function DefinitionOf(data: AutomationIn): Definition {
    Definition(data.name, data.triggers, data.secretName, data.cooldownSeconds, data.cooldownFields,
               OrDefault(data.timeoutSeconds, TIMEOUT_SECONDS_DEFAULT),
               OrDefault(data.graceSeconds, GRACE_SECONDS_DEFAULT), data.logstashUrl)
  }

  /** What a create or an edit has to leave in the definition columns. */
  predicate StoredAs(d: Definition, data: AutomationIn) {
    && d.name == data.name
    && d.triggers == data.triggers
    && d.secretName == data.secretName
    && d.cooldownSeconds == data.cooldownSeconds
    && d.cooldownFields == data.cooldownFields
    && d.timeoutSeconds ==
         (if data.timeoutSeconds.Some? && data.timeoutSeconds.value != 0 then data.timeoutSeconds.value else 300)
    && d.graceSeconds ==
         (if data.graceSeconds.Some? && data.graceSeconds.value != 0 then data.graceSeconds.value else 300)
    && d.logstashUrl == data.logstashUrl
  }

  datatype Row = Row(
    id: Uuid,
    tenant: string,
    namespace: Wallet,
    definition: Definition,
    cappDeploymentId: Option<ResourceName>,
    deploymentUrl: Option<string>,
    matching: MatchingState,
    build: BuildState,
    activeDigest: Option<Image>,
    buildingSha: Option<Sha>,
    contractVersion: Option<string>,
    lockDeadline: Option<Deadline>,
    cascadeStep: Option<nat>,
    indexGeneration: nat,
    createdBy: Actor,
    updatedBy: Actor)

  /** `git_sha` travels with the actions that always set it; the others never do. */
  datatype Action =
    | Create(sha: Sha)
    | Edit(sha: Sha)
    | Enable
    | Disable
    | Delete
    | BuildSucceeded(sha: Sha)
    | BuildFailure(sha: Sha)
  {
    /** Whether the action leaves a new commit to be built. */
    predicate Requesting() { Create? || Edit? }
  }

  datatype Revision = Revision(action: Action, resultingDigest: Option<Image>, actor: Actor)

  /** One automation's row with its revision log in commit order. */
  datatype Db = Db(row: Row, log: seq<Revision>)

  /** The actor of every build outcome revision. */
  const BUILD_ACTOR := Actor("ci-webhook")

  datatype BuildOutcome = Success(image: Image, contractVersion: string) | Failed
  datatype CiWebhook = CiWebhook(sha: Sha, outcome: BuildOutcome)
  datatype IgnoredReason = NotBuilding | ShaMismatch | RowDeleting

  /** What a CAPP create returns; `wallet` records where the call was made. */
  datatype CappDeployment = CappDeployment(deploymentId: ResourceName, deploymentUrl: string, wallet: Wallet)

  function DeploymentUrl(wallet: Wallet, id: Uuid): string { "https://" + wallet.name + ".capp.test/" + id.text }

  function CappName(id: Uuid): ResourceName { ResourceName("automation-" + id.text) }
  function RunAuthSecretName(id: Uuid): ResourceName { ResourceName("automation-" + id.text + "-run-auth") }

  /** The row's Capp; before an id is stored it is the derived name a create would have used. */
  function CappNameFor(row: Row): ResourceName {
    if row.cappDeploymentId.Some? then row.cappDeploymentId.value else CappName(row.id)
  }
}
