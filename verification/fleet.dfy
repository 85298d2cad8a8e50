/** The loops of the multiple-function endpoints: deploying a fleet of
    `number_of_functions` functions named `{prefix}-0`, `{prefix}-1`, ... from
    one image, and invoking the same fleet, each function with its log group
    and, on invocation, its log stream. */
module Fleet {
  import opened AwsNaming
  import opened AwsConfig

  /** What one iteration of the deployment loop creates: the function, its image and its log group. */
  datatype DeployTarget = DeployTarget(functionName: string, imageUri: string, logGroupName: string)

  /** What one iteration of the invocation loop addresses: the function and where its result is logged. */
  datatype InvokeTarget = InvokeTarget(functionName: string, logGroupName: string, logStreamName: string)

  /** The number of values `range(count)` yields: none for a negative count. */
  function RangeLength(count: int): nat {
    if count < 0 then 0 else count
  }

  /** Distinct indices give distinct function names, log groups and log streams. */
  lemma FleetNamesDistinct(prefix: string, i: nat, j: nat)
    requires i != j
    ensures FunctionName(prefix, i) != FunctionName(prefix, j)
    ensures LogGroupName(FunctionName(prefix, i)) != LogGroupName(FunctionName(prefix, j))
    ensures LogStreamName(FunctionName(prefix, i)) != LogStreamName(FunctionName(prefix, j))
  {
    FunctionNameInjective(prefix, i, j);
    LogGroupNameInjective(FunctionName(prefix, i), FunctionName(prefix, j));
    LogStreamNameInjective(FunctionName(prefix, i), FunctionName(prefix, j));
  }

  /** The functions `deploy_multiple_functions` creates, in the order it creates them,
      in the region the request names or else the environment's default. */
  method PlanDeployments(prefix: string, count: int, repository: string, tag: string, accountId: string,
                         requestedRegion: Option<string>, environmentRegion: Option<string>)
    returns (targets: seq<DeployTarget>)
    ensures |targets| == RangeLength(count)
    ensures forall i :: 0 <= i < |targets| ==>
      targets[i] == DeployTarget(FunctionName(prefix, i),
                                 ImageUri(accountId, ResolveRegion(requestedRegion, environmentRegion), repository, tag),
                                 LogGroupName(FunctionName(prefix, i)))
    ensures forall i, j :: 0 <= i < j < |targets| ==>
      targets[i].functionName != targets[j].functionName && targets[i].logGroupName != targets[j].logGroupName
  {
    var region := ResolveRegion(requestedRegion, environmentRegion);
    targets := [];
    var i := 0;
    while i < count
      invariant 0 <= i && i == |targets|
      invariant i <= RangeLength(count)
      invariant forall k :: 0 <= k < i ==>
        targets[k] == DeployTarget(FunctionName(prefix, k), ImageUri(accountId, region, repository, tag), LogGroupName(FunctionName(prefix, k)))
    {
      var functionName := FunctionName(prefix, i);
      var imageUri := ImageUri(accountId, region, repository, tag);
      targets := targets + [DeployTarget(functionName, imageUri, LogGroupName(functionName))];
      i := i + 1;
    }
    forall i, j | 0 <= i < j < |targets|
      ensures targets[i].functionName != targets[j].functionName && targets[i].logGroupName != targets[j].logGroupName
    {
      FleetNamesDistinct(prefix, i, j);
    }
  }

  /** The functions `invoke_multiple_functions` invokes, in the order it invokes them. */
  method PlanInvocations(prefix: string, count: int) returns (targets: seq<InvokeTarget>)
    ensures |targets| == RangeLength(count)
    ensures forall i :: 0 <= i < |targets| ==>
      var name := FunctionName(prefix, i);
      targets[i] == InvokeTarget(name, LogGroupName(name), LogStreamName(name))
    ensures forall i, j :: 0 <= i < j < |targets| ==>
      && targets[i].functionName != targets[j].functionName
      && targets[i].logGroupName != targets[j].logGroupName
      && targets[i].logStreamName != targets[j].logStreamName
  {
    targets := [];
    var i := 0;
    while i < count
      invariant 0 <= i && i == |targets|
      invariant i <= RangeLength(count)
      invariant forall k :: 0 <= k < i ==>
        var name := FunctionName(prefix, k);
        targets[k] == InvokeTarget(name, LogGroupName(name), LogStreamName(name))
    {
      var functionName := FunctionName(prefix, i);
      targets := targets + [InvokeTarget(functionName, LogGroupName(functionName), LogStreamName(functionName))];
      i := i + 1;
    }
    forall i, j | 0 <= i < j < |targets|
      ensures && targets[i].functionName != targets[j].functionName
              && targets[i].logGroupName != targets[j].logGroupName
              && targets[i].logStreamName != targets[j].logStreamName
    {
      FleetNamesDistinct(prefix, i, j);
    }
  }
}
