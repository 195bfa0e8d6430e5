/** The external systems: CAPP deployments and Secrets, registry inventory, git. */
module ExternalWorld {
  import opened Domain

  /** CAPP resources are addressed by wallet and name. */
  datatype Key = Key(wallet: Wallet, name: ResourceName)

  datatype World = World(
    capps: map<Key, Image>,
    secrets: set<Key>,
    images: map<Uuid, set<string>>,
    files: map<string, string>,
    commits: seq<string>)

  function ScriptPath(id: Uuid): string { id.text + "/script.py" }
  function ArchiveMarkerPath(id: Uuid): string { id.text + "/.archived" }
  function MarkerContent(actor: Actor): string { "archived by " + actor.email + "\n" }
  function ArchiveMessage(id: Uuid): string { "archive " + id.text }

  /** The images CAPP serves under `name`, over every wallet. */
  function Serving(w: World, name: ResourceName): set<Image> {
    set k | k in w.capps && k.name == name :: w.capps[k]
  }

  /** Create or find the deployment. One that exists in another wallet is torn down first;
      the run-auth Secret is laid down next to the deployment. */
  function CreateDeployment(w: World, id: Uuid, wallet: Wallet, image: Image): World {
    var name := CappName(id);
    var elsewhere := map k | k in w.capps && k.name != name :: w.capps[k];
    w.(capps := elsewhere[Key(wallet, name) := image],
       secrets := w.secrets + {Key(wallet, RunAuthSecretName(id))})
  }

  /** Roll the deployment called `name` out to `image`; the keys never change. */
  function Rollout(w: World, name: ResourceName, image: Image): World {
    w.(capps := map k | k in w.capps :: if k.name == name then image else w.capps[k])
  }

  /** Delete-if-exists. */
  function DeleteCapp(w: World, key: Key): World { w.(capps := w.capps - {key}) }
  function DeleteSecret(w: World, key: Key): World { w.(secrets := w.secrets - {key}) }

  function Inventory(w: World, id: Uuid): set<string> {
    if id in w.images then w.images[id] else {}
  }

  function DeleteImage(w: World, id: Uuid, entry: string): World {
    if id in w.images then w.(images := w.images[id := w.images[id] - {entry}]) else w
  }

  function PushImage(w: World, id: Uuid, entry: string): World {
    w.(images := w.images[id := Inventory(w, id) + {entry}])
  }

  function CommitFile(w: World, path: string, content: string, message: string): World {
    w.(files := w.files[path := content], commits := w.commits + [message])
  }

  /** Idempotent: with the marker in place there is no second commit. */
  function Archive(w: World, id: Uuid, actor: Actor): World {
    if ArchiveMarkerPath(id) in w.files then w
    else CommitFile(w, ArchiveMarkerPath(id), MarkerContent(actor), ArchiveMessage(id))
  }

  /** A create leaves exactly one deployment under the automation's name, where it was asked for, lays down the
      run-auth Secret beside it and touches nothing else. */
  lemma CreateExactly(w: World, id: Uuid, wallet: Wallet, image: Image, k: Key)
    ensures var w' := CreateDeployment(w, id, wallet, image);
      && (k in w'.capps <==> k == Key(wallet, CappName(id)) || (k in w.capps && k.name != CappName(id)))
      && (k in w'.capps ==> w'.capps[k] == if k.name == CappName(id) then image else w.capps[k])
      && (k in w'.secrets <==> k == Key(wallet, RunAuthSecretName(id)) || k in w.secrets)
      && w'.images == w.images && w'.files == w.files && w'.commits == w.commits
  {
  }

  /** A rollout swaps the image of every deployment of that name and touches nothing else. */
  lemma RolloutExactly(w: World, name: ResourceName, image: Image, k: Key)
    ensures var w' := Rollout(w, name, image);
      && (k in w'.capps <==> k in w.capps)
      && (k in w'.capps ==> w'.capps[k] == if k.name == name then image else w.capps[k])
      && w'.secrets == w.secrets && w'.images == w.images && w'.files == w.files && w'.commits == w.commits
  {
  }

  lemma CreateServes(w: World, id: Uuid, wallet: Wallet, image: Image)
    ensures Serving(CreateDeployment(w, id, wallet, image), CappName(id)) == {image}
  {
    var w' := CreateDeployment(w, id, wallet, image);
    assert w'.capps[Key(wallet, CappName(id))] == image;
  }

  lemma RolloutServes(w: World, name: ResourceName, image: Image)
    requires Serving(w, name) != {}
    ensures Serving(Rollout(w, name, image), name) == {image}
  {
    var w' := Rollout(w, name, image);
    var k :| k in w.capps && k.name == name;
    assert w'.capps[k] == image;
  }
}
