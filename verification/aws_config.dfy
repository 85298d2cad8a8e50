/** How the AWS deployment endpoints turn a request into the parameters they
    send to Lambda: the region, memory and ephemeral-storage defaults, the
    VPC configuration that is only sent when a VPC is named, the create
    request and the update requests of the "already exists" path, and the
    parameter record of the update-function-configuration endpoint.

    Request fields follow Python's truthiness: an optional text counts as
    given when present and non-empty, an optional number when present and
    non-zero, an optional list or dictionary when present and non-empty. */
module AwsConfig {
  import opened AwsNaming

  datatype Option<T> = None | Some(value: T)

  predicate TextGiven(s: Option<string>) {
    s.Some? && s.value != ""
  }

  predicate NumberGiven(n: Option<int>) {
    n.Some? && n.value != 0
  }

  const DefaultRegion := "us-west-2"
  const DefaultMemorySize := 128
  const DefaultStorageSize := 512

  /** `region or os.getenv("AWS_DEFAULT_REGION", "us-west-2")`; `environment` is
      the variable's value, `None` when it is not set. */
  function ResolveRegion(requested: Option<string>, environment: Option<string>): (region: string)
    ensures TextGiven(requested) ==> region == requested.value
    ensures !TextGiven(requested) && environment.Some? ==> region == environment.value
    ensures !TextGiven(requested) && environment.None? ==> region == DefaultRegion
  {
    if TextGiven(requested) then requested.value
    else if environment.Some? then environment.value
    else DefaultRegion
  }

  /** The resolved region is empty only when no region was requested and the
      environment variable is set but empty: `getenv` returns the empty value. */
  lemma RegionEmptyOnlyFromEmptyEnvironment(requested: Option<string>, environment: Option<string>)
    ensures ResolveRegion(requested, environment) == "" <==> !TextGiven(requested) && environment == Some("")
  {
  }

  /** `memory_size if memory_size else 128`. */
  function MemorySize(requested: Option<int>): (size: int)
    ensures size != 0
    ensures NumberGiven(requested) ==> size == requested.value
    ensures !NumberGiven(requested) ==> size == DefaultMemorySize
  {
    if NumberGiven(requested) then requested.value else DefaultMemorySize
  }

  /** `storage_size if storage_size else 512`. */
  function EphemeralStorageSize(requested: Option<int>): (size: int)
    ensures size != 0
    ensures NumberGiven(requested) ==> size == requested.value
    ensures !NumberGiven(requested) ==> size == DefaultStorageSize
  {
    if NumberGiven(requested) then requested.value else DefaultStorageSize
  }

  /** Applying a default twice changes nothing: the resolved size is itself a given size. */
  lemma SizeDefaultsIdempotent(memory: Option<int>, storage: Option<int>)
    ensures MemorySize(Some(MemorySize(memory))) == MemorySize(memory)
    ensures EphemeralStorageSize(Some(EphemeralStorageSize(storage))) == EphemeralStorageSize(storage)
  {
  }

  /** `ids or []`: an absent list becomes the empty list. */
  function ListOrEmpty(ids: Option<seq<string>>): (list: seq<string>)
    ensures ids.Some? ==> list == ids.value
    ensures ids.None? ==> list == []
  {
    if ids.Some? then ids.value else []
  }

  /** The `VpcConfig` argument: `{}` or the subnet and security-group lists. */
  datatype VpcConfig = NoVpc | Vpc(subnetIds: seq<string>, securityGroupIds: seq<string>)

  /** The VPC configuration of a new function: empty unless a VPC ID is given. */
  function CreateVpcConfig(vpcId: Option<string>, subnetIds: Option<seq<string>>, securityGroupIds: Option<seq<string>>): (config: VpcConfig)
    ensures config.NoVpc? <==> !TextGiven(vpcId)
    ensures config.Vpc? ==> config.subnetIds == ListOrEmpty(subnetIds) && config.securityGroupIds == ListOrEmpty(securityGroupIds)
  {
    if TextGiven(vpcId) then Vpc(ListOrEmpty(subnetIds), ListOrEmpty(securityGroupIds)) else NoVpc
  }

  /** The fields of a deployment request that shape what is sent to Lambda. */
  datatype DeployRequest = DeployRequest(
    repositoryName: string,
    imageTag: string,
    functionName: string,
    memorySize: Option<int>,
    storageSize: Option<int>,
    region: Option<string>,
    vpcId: Option<string>,
    subnetIds: Option<seq<string>>,
    securityGroupIds: Option<seq<string>>)

  datatype CreateFunctionParams = CreateFunctionParams(
    functionName: string,
    role: string,
    imageUri: string,
    packageType: string,
    publish: bool,
    memorySize: int,
    ephemeralStorageSize: int,
    vpcConfig: VpcConfig)

  /** The `create_function` call of the deploy endpoint. */
  function CreateFunctionRequest(request: DeployRequest, accountId: string, environmentRegion: Option<string>): (params: CreateFunctionParams)
    ensures params.functionName == request.functionName
    ensures params.role == RoleArn(accountId, LambdaExecutionRole)
    ensures params.imageUri == ImageUri(accountId, ResolveRegion(request.region, environmentRegion), request.repositoryName, request.imageTag)
    ensures params.packageType == "Image" && params.publish
    ensures params.memorySize == MemorySize(request.memorySize) && params.memorySize != 0
    ensures params.ephemeralStorageSize == EphemeralStorageSize(request.storageSize) && params.ephemeralStorageSize != 0
    ensures params.vpcConfig == CreateVpcConfig(request.vpcId, request.subnetIds, request.securityGroupIds)
    ensures params.vpcConfig.NoVpc? <==> !TextGiven(request.vpcId)
  {
    var region := ResolveRegion(request.region, environmentRegion);
    CreateFunctionParams(
      request.functionName,
      RoleArn(accountId, LambdaExecutionRole),
      ImageUri(accountId, region, request.repositoryName, request.imageTag),
      "Image",
      true,
      MemorySize(request.memorySize),
      EphemeralStorageSize(request.storageSize),
      CreateVpcConfig(request.vpcId, request.subnetIds, request.securityGroupIds))
  }

  datatype UpdateCodeParams = UpdateCodeParams(functionName: string, imageUri: string, publish: bool)

  datatype UpdateConfigurationParams = UpdateConfigurationParams(
    functionName: string,
    memorySize: int,
    ephemeralStorageSize: int,
    vpcConfig: VpcConfig)

  /** What the deploy endpoint sends when the function already exists: new code
      always, and a configuration update only when a VPC ID is given. */
  datatype ConflictRequests = ConflictRequests(code: UpdateCodeParams, configuration: Option<UpdateConfigurationParams>)

  function ConflictRequestsFor(request: DeployRequest, accountId: string, environmentRegion: Option<string>): (requests: ConflictRequests)
    ensures requests.configuration.Some? <==> TextGiven(request.vpcId)
    ensures requests.configuration.Some? ==> requests.configuration.value.vpcConfig.Vpc?
  {
    var region := ResolveRegion(request.region, environmentRegion);
    var code := UpdateCodeParams(request.functionName, ImageUri(accountId, region, request.repositoryName, request.imageTag), true);
    if TextGiven(request.vpcId) then
      ConflictRequests(code, Some(UpdateConfigurationParams(
        request.functionName,
        MemorySize(request.memorySize),
        EphemeralStorageSize(request.storageSize),
        Vpc(ListOrEmpty(request.subnetIds), ListOrEmpty(request.securityGroupIds)))))
    else
      ConflictRequests(code, None)
  }

  /** The existing-function path sends the same image, memory, storage and VPC
      settings as the create path would have. */
  lemma ConflictPathAgreesWithCreate(request: DeployRequest, accountId: string, environmentRegion: Option<string>)
    ensures var create := CreateFunctionRequest(request, accountId, environmentRegion);
            var conflict := ConflictRequestsFor(request, accountId, environmentRegion);
            && conflict.code.functionName == create.functionName
            && conflict.code.imageUri == create.imageUri
            && conflict.code.publish == create.publish
            && (conflict.configuration.Some? ==>
                  && conflict.configuration.value.functionName == create.functionName
                  && conflict.configuration.value.memorySize == create.memorySize
                  && conflict.configuration.value.ephemeralStorageSize == create.ephemeralStorageSize
                  && conflict.configuration.value.vpcConfig == create.vpcConfig)
  {
  }

  /** The request of the update-function-configuration endpoint. */
  datatype UpdateFunctionConfig = UpdateFunctionConfig(
    functionName: string,
    memorySize: Option<int>,
    timeout: Option<int>,
    environmentVariables: Option<map<string, string>>,
    region: Option<string>)

  predicate VariablesGiven(variables: Option<map<string, string>>) {
    variables.Some? && variables.value != map[]
  }

  /** A value of the keyword-argument dictionary passed to `update_function_configuration`. */
  datatype ParamValue =
    | StringParam(text: string)
    | IntParam(number: int)
    | EnvironmentParam(variables: map<string, string>)  // {'Variables': variables}

  /** Builds the keyword arguments, adding each optional setting only when it is given. */
  method BuildUpdateParams(config: UpdateFunctionConfig) returns (params: map<string, ParamValue>)
    ensures params.Keys <= {"FunctionName", "MemorySize", "Timeout", "Environment"}
    ensures "FunctionName" in params && params["FunctionName"] == StringParam(config.functionName)
    ensures "MemorySize" in params <==> NumberGiven(config.memorySize)
    ensures "MemorySize" in params ==> params["MemorySize"] == IntParam(config.memorySize.value)
    ensures "Timeout" in params <==> NumberGiven(config.timeout)
    ensures "Timeout" in params ==> params["Timeout"] == IntParam(config.timeout.value)
    ensures "Environment" in params <==> VariablesGiven(config.environmentVariables)
    ensures "Environment" in params ==> params["Environment"] == EnvironmentParam(config.environmentVariables.value)
  {
    params := map["FunctionName" := StringParam(config.functionName)];
    if NumberGiven(config.memorySize) {
      params := params["MemorySize" := IntParam(config.memorySize.value)];
    }
    if NumberGiven(config.timeout) {
      params := params["Timeout" := IntParam(config.timeout.value)];
    }
    if VariablesGiven(config.environmentVariables) {
      params := params["Environment" := EnvironmentParam(config.environmentVariables.value)];
    }
  }
}
