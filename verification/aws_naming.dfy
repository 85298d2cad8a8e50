/** The names the AWS deployment endpoints compose before calling the
    provider: the local image name, the ECR registry host and image URI, the
    execution role's ARN, the numbered function names of a fleet and the
    CloudWatch log group and log stream of a function. Each comes with the
    lemma that reads its parts back out of it. */
module AwsNaming {
  import opened Text

  /** The role every deployment endpoint creates or reuses for its functions. */
  const LambdaExecutionRole := "lambda-execution-role"

  /** `{repository}:{tag}`, the name `docker build -t` is given. A repository
      and a tag without ':' are read back by splitting at ':'. */
  function ImageName(repository: string, tag: string): (name: string)
    ensures ':' !in repository && ':' !in tag ==> Split(name, ':') == [repository, tag]
  {
    JoinTwoSplit(repository, tag, ':');
    repository + ":" + tag
  }

  /** `{account}.dkr.ecr.{region}.amazonaws.com`, the account's registry in a
      region. Its dot-separated labels are the account, `dkr`, `ecr`, the
      region, `amazonaws` and `com`. */
  function RegistryHost(accountId: string, region: string): (host: string)
    ensures '.' !in accountId && '.' !in region ==>
              Split(host, '.') == [accountId, "dkr", "ecr", region, "amazonaws", "com"]
    ensures '/' !in accountId && '/' !in region ==> '/' !in host
  {
    RegistryHostLabels(accountId, region);
    accountId + ".dkr.ecr." + region + ".amazonaws.com"
  }

  /** `{registry}/{repository}:{tag}`, the image pushed to ECR and given to
      Lambda: its first '/' ends the registry host, and the image name follows. */
  function ImageUri(accountId: string, region: string, repository: string, tag: string): (uri: string)
    ensures '/' !in accountId && '/' !in region ==>
              var k := IndexOf(uri, '/');
              k < |uri| && uri[..k] == RegistryHost(accountId, region) && uri[k + 1..] == ImageName(repository, tag)
  {
    var host := RegistryHost(accountId, region);
    FirstSeparator(host, ImageName(repository, tag), '/');
    host + "/" + ImageName(repository, tag)
  }

  /** `arn:aws:iam::{account}:role/{role}`. Its colon-separated fields are `arn`,
      the partition `aws`, the service `iam`, an empty region (IAM is global),
      the account and the `role/{name}` resource. */
  function RoleArn(accountId: string, roleName: string): (arn: string)
    ensures ':' !in accountId && ':' !in roleName ==>
              Split(arn, ':') == ["arn", "aws", "iam", "", accountId, "role/" + roleName]
  {
    RoleArnFields(accountId, roleName);
    "arn:aws:iam::" + accountId + ":role/" + roleName
  }

  /** `{prefix}-{i}`, the i-th function of a fleet: the prefix, a '-', and
      digits that spell the index. */
  function FunctionName(prefix: string, i: nat): (name: string)
    ensures |name| > |prefix| + 1
    ensures name[..|prefix| + 1] == prefix + "-"
    ensures AllDigits(name[|prefix| + 1..]) && ParseNat(name[|prefix| + 1..]) == i
    ensures name[|prefix| + 1] == '0' ==> name == prefix + "-0"
  {
    var name := prefix + "-" + NatToString(i);
    assert name[|prefix| + 1..] == NatToString(i);
    ParseNatToString(i);
    name
  }

  /** `/aws/lambda/{function}`, the log group Lambda writes a function's logs
      to: a path whose components are `aws`, `lambda` and the function. */
  function LogGroupName(functionName: string): (group: string)
    ensures '/' !in functionName ==> Split(group, '/') == ["", "aws", "lambda", functionName]
  {
    LogGroupPath(functionName);
    "/aws/lambda/" + functionName
  }

  /** `{function}-invocation`, the stream an invocation is logged to. */
  function LogStreamName(functionName: string): string {
    functionName + "-invocation"
  }

  /** Two parts joined by a separator that neither holds split back into those parts. */
  lemma JoinTwoSplit(a: string, b: string, sep: char)
    ensures sep !in a && sep !in b ==> Split(a + [sep] + b, sep) == [a, b]
  {
    if sep !in a && sep !in b {
      JoinSnoc([a], b, sep);
      assert [a] + [b] == [a, b];
      SplitJoin([a, b], sep);
    }
  }

  /** A six-part join written out. */
  lemma JoinSix(parts: seq<string>, sep: char)
    requires |parts| == 6
    ensures Join(parts, sep)
         == parts[0] + [sep] + parts[1] + [sep] + parts[2] + [sep] + parts[3] + [sep] + parts[4] + [sep] + parts[5]
  {
    var p1, p2, p3, p4, p5 := parts[1..], parts[2..], parts[3..], parts[4..], parts[5..];
    assert p1[1..] == p2 && p2[1..] == p3 && p3[1..] == p4 && p4[1..] == p5;
    assert Join(p5, sep) == parts[5];
    assert Join(p4, sep) == parts[4] + [sep] + parts[5];
    assert Join(p3, sep) == parts[3] + [sep] + Join(p4, sep);
    assert Join(p2, sep) == parts[2] + [sep] + Join(p3, sep);
    assert Join(p1, sep) == parts[1] + [sep] + Join(p2, sep);
  }

  /** A six-part join grouped as a text, a middle, a text and an end. */
  lemma JoinSixGrouped(a: string, b: string, c: string, d: string, e: string, f: string, sep: char)
    ensures Join([a, b, c, d, e, f], sep) == a + ([sep] + b + [sep] + c + [sep]) + d + ([sep] + e + [sep] + f)
  {
    JoinSix([a, b, c, d, e, f], sep);
  }

  /** The registry host's text, split at '.' into its labels. */
  lemma RegistryHostLabels(accountId: string, region: string)
    ensures var host := accountId + ".dkr.ecr." + region + ".amazonaws.com";
            && ('.' !in accountId && '.' !in region ==>
                  Split(host, '.') == [accountId, "dkr", "ecr", region, "amazonaws", "com"])
            && ('/' !in accountId && '/' !in region ==> '/' !in host)
  {
    var labels := [accountId, "dkr", "ecr", region, "amazonaws", "com"];
    JoinSixGrouped(accountId, "dkr", "ecr", region, "amazonaws", "com", '.');
    assert ".dkr.ecr." == ['.'] + "dkr" + ['.'] + "ecr" + ['.'];
    assert ".amazonaws.com" == ['.'] + "amazonaws" + ['.'] + "com";
    if '.' !in accountId && '.' !in region {
      assert forall i :: 0 <= i < |labels| ==> '.' !in labels[i];
      SplitJoin(labels, '.');
    }
  }

  /** The first separator of `a + [sep] + b` is the one after `a` when `a` holds none. */
  lemma FirstSeparator(a: string, b: string, sep: char)
    ensures var s := a + [sep] + b;
            sep !in a ==> var k := IndexOf(s, sep); k == |a| && s[..k] == a && s[k + 1..] == b
  {
    var s := a + [sep] + b;
    if sep !in a {
      assert s[|a|] == sep;
      assert forall j :: 0 <= j < |a| ==> s[j] == a[j];
      assert IndexOf(s, sep) == |a|;
      assert s[..|a|] == a;
    }
  }

  /** The role ARN's text is its six fields joined by ':'. */
  lemma RoleArnIsJoin(accountId: string, roleName: string)
    ensures "arn:aws:iam::" + accountId + ":role/" + roleName
         == Join(["arn", "aws", "iam", "", accountId, "role/" + roleName], ':')
  {
    JoinSix(["arn", "aws", "iam", "", accountId, "role/" + roleName], ':');
    assert "arn:aws:iam::" == "arn" + [':'] + "aws" + [':'] + "iam" + [':'] + "" + [':'];
    assert ":role/" + roleName == [':'] + ("role/" + roleName);
  }

  /** The role ARN's text, split at ':' into its fields. */
  lemma RoleArnFields(accountId: string, roleName: string)
    ensures ':' !in accountId && ':' !in roleName ==>
              Split("arn:aws:iam::" + accountId + ":role/" + roleName, ':')
                == ["arn", "aws", "iam", "", accountId, "role/" + roleName]
  {
    if ':' !in accountId && ':' !in roleName {
      var fields := ["arn", "aws", "iam", "", accountId, "role/" + roleName];
      RoleArnIsJoin(accountId, roleName);
      assert ':' !in "role/" + roleName;
      assert forall i :: 0 <= i < |fields| ==> ':' !in fields[i];
      SplitJoin(fields, ':');
    }
  }

  /** The log group's text, split at '/' into its path components. */
  lemma LogGroupPath(functionName: string)
    ensures '/' !in functionName ==>
              Split("/aws/lambda/" + functionName, '/') == ["", "aws", "lambda", functionName]
  {
    var parts := ["", "aws", "lambda", functionName];
    JoinSnoc([""], "aws", '/');
    JoinSnoc(["", "aws"], "lambda", '/');
    JoinSnoc(["", "aws", "lambda"], functionName, '/');
    assert [""] + ["aws"] == ["", "aws"];
    assert ["", "aws"] + ["lambda"] == ["", "aws", "lambda"];
    assert ["", "aws", "lambda"] + [functionName] == parts;
    assert "/aws/lambda/" == "" + ['/'] + "aws" + ['/'] + "lambda" + ['/'];
    if '/' !in functionName {
      assert forall i :: 0 <= i < |parts| ==> '/' !in parts[i];
      SplitJoin(parts, '/');
    }
  }

  /** Two indices of one fleet never give the same function name. */
  lemma FunctionNameInjective(prefix: string, i: nat, j: nat)
    ensures FunctionName(prefix, i) == FunctionName(prefix, j) ==> i == j
  {
  }

  /** Different functions log to different log groups. */
  lemma LogGroupNameInjective(a: string, b: string)
    ensures LogGroupName(a) == LogGroupName(b) ==> a == b
  {
    assert LogGroupName(a)[12..] == a && LogGroupName(b)[12..] == b;
  }

  /** Different functions log their invocations to different streams. */
  lemma LogStreamNameInjective(a: string, b: string)
    ensures LogStreamName(a) == LogStreamName(b) ==> a == b
  {
    if LogStreamName(a) == LogStreamName(b) {
      assert |a| == |b|;
      assert LogStreamName(a)[..|a|] == a && LogStreamName(b)[..|b|] == b;
    }
  }
}
