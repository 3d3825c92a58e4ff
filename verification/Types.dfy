// Values shared by every part of the model: names, specs, live objects and the
// persisted binding status.

module Types {
  datatype Option<+T> = None | Some(value: T)

  // An absent label reads as the empty string.
  function LabelOf(labels: map<string, string>, key: string): string {
    if key in labels then labels[key] else ""
  }

  // A namespaced name.
  datatype Key = Key(namespace: string, name: string)

  // spec of an InferenceIdentityBinding.
  datatype BindingSpec = BindingSpec(poolName: string, poolGroup: string, serviceAccount: string, variant: string)

  // spec of a ClusterSPIFFEID. Undecodable stands for a spec that is not an object.
  datatype ObjectSpec =
    | Rendered(
        spiffeID: string,
        podLabels: map<string, string>,
        selectors: seq<string>,
        fallback: bool,
        hint: string,
        className: Option<string>)
    | Undecodable(raw: string)

  // A live ClusterSPIFFEID. `claim` is the ownership-claim annotation ("" when
  // absent), `held` says that some finalizer keeps a deleted object present.
  datatype Object = Object(
    name: string,
    uid: nat,
    rv: nat,
    generation: nat,
    claim: string,
    labels: map<string, string>,
    spec: ObjectSpec,
    held: bool,
    terminating: bool)

  // An InferencePool as read through an unstructured object.
  datatype Json = Text(text: string) | Fields(fields: map<string, Json>) | OtherJson
  datatype Pool = Pool(name: string, selector: Option<Json>)

  datatype Anchor = Anchor(kind: string, name: string)

  datatype Plan = Plan(
    spiffeID: string,
    selectors: seq<string>,
    podLabels: map<string, string>,
    anchor: Anchor,
    variant: string)

  datatype Config = Config(trustDomain: string, className: string)

  datatype Cause = VariantReuse | DuplicateSPIFFEID
}
