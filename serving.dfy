/** The declarative serving spec handed to an external orchestrator, and the
    deploy entry point (which only derives the spec). */
module Serving {
  import opened Wrappers
  import opened Values

  const StagingTarget: string := "staging"
  const ProdTarget: string := "prod"
  const DefaultStagingReplicas: real := 1.0
  const DefaultProdReplicas: real := 2.0

  datatype ServingSpec = ServingSpec(
    modelName: string,
    version: string,
    artifactPath: string,
    target: string,
    replicas: Json,
    env: map<string, string>)

  /** get_serving_spec: `deploy.staging_replicas` (default 1) for the staging
      target, `deploy.prod_replicas` (default 2) for every other target. */
  function GetServingSpec(modelName: string, version: string, artifactPath: string, target: string, config: Json): (r: Result<ServingSpec>)
    ensures r.Ok? <==> Setting(config, "deploy", "staging_replicas").Ok?
    ensures r.Ok? ==>
      && r.value.modelName == modelName && r.value.version == version
      && r.value.artifactPath == artifactPath && r.value.target == target
    ensures r.Ok? ==> r.value.env == map["MODEL_NAME" := modelName, "MODEL_VERSION" := version, "ARTIFACT_PATH" := artifactPath]
    ensures r.Ok? && target == StagingTarget ==>
      r.value.replicas == OptionOr(Setting(config, "deploy", "staging_replicas").value, Num(DefaultStagingReplicas))
    ensures r.Ok? && target != StagingTarget ==>
      r.value.replicas == OptionOr(Setting(config, "deploy", "prod_replicas").value, Num(DefaultProdReplicas))
  {
    var replicas := if target == StagingTarget
      then SettingOr(config, "deploy", "staging_replicas", Num(DefaultStagingReplicas))
      else SettingOr(config, "deploy", "prod_replicas", Num(DefaultProdReplicas));
    match replicas
    case Err(e) => Err(e)
    case Ok(n) =>
      Ok(ServingSpec(modelName, version, artifactPath, target, n,
        map["MODEL_NAME" := modelName, "MODEL_VERSION" := version, "ARTIFACT_PATH" := artifactPath]))
  }

  /** A missing configuration behaves as an empty one, and gives the default
      replica counts. */
  lemma NoConfigIsEmptyConfig(modelName: string, version: string, artifactPath: string, target: string)
    ensures GetServingSpec(modelName, version, artifactPath, target, Null)
         == GetServingSpec(modelName, version, artifactPath, target, EmptyObj)
    ensures GetServingSpec(modelName, version, artifactPath, target, Null).Ok?
    ensures GetServingSpec(modelName, version, artifactPath, target, Null).value.replicas
         == Num(if target == StagingTarget then DefaultStagingReplicas else DefaultProdReplicas)
  {
  }

  /** deploy_to_target: a placeholder that derives the spec and discards it.
      It changes nothing; its only observable outcome is whether deriving
      the spec raised. */
  function DeployToTarget(modelName: string, version: string, artifactPath: string, target: string, config: Json): (r: Result<()>)
    ensures r.Ok? <==> GetServingSpec(modelName, version, artifactPath, target, config).Ok?
    ensures r.Ok? <==> Setting(config, "deploy", "prod_replicas").Ok?
  {
    match GetServingSpec(modelName, version, artifactPath, target, config)
    case Err(e) => Err(e)
    case Ok(_) => Ok(())
  }
}
