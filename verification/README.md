# Employee table and Lambda request shaping, in Dafny

This project models the two pieces of the repository that hold logic of their
own, and proves what they promise.

- **The HR service** (`scripts/hr.py`) keeps an in-memory table from employee ID
  to a record (name, position, salary, performance). It has four endpoints:
  - add an employee, refusing a duplicate ID with 400;
  - view an employee, answering 404 for an unknown ID;
  - update one employee's performance, answering 404 for an unknown ID;
  - print a payroll report that walks the table and adds up the salaries.

  The table is the class `Hr.EmployeeTable`. Its field `employees` is a map.
  Its field `order` lists the IDs in insertion order, which is the order a
  Python dictionary is iterated in. The add, view and update endpoints are
  methods with a `Reply` result: a body, or a status code with a detail text.
  The payroll endpoint is a method that returns the report text and the total.
- **The AWS deployment helpers** (`deployment/aws/deploy.py`) build the requests
  the endpoints send to the provider. The model covers:
  - the advanced Dockerfile text (`Dockerfile`);
  - the image name, ECR registry host, image URI, role ARN, fleet function
    names, log group and log stream names (`AwsNaming`);
  - the region, memory and storage defaults, the conditional VPC
    configuration, the create request and the "function already exists"
    requests of the deploy endpoint, and the update-configuration parameters
    (`AwsConfig`);
  - the loops that name a fleet of functions for deployment and invocation
    (`Fleet`).

`Text` holds what both parts share. It renders a Python `int` in decimal
(`str(n)`) and reads it back. It also has `str.split` and `str.join` on a
one-character separator, with both round trips. Because splitting then joining
gives any text back (`Text.JoinSplit`), a contract that fixes what a name splits
into fixes the whole name. These let the lemmas say that
a composed name or text can be taken apart again into exactly the pieces it
was built from.

Python truthiness is modelled explicitly. An optional text counts as given when
it is present and non-empty. An optional number counts when it is present and
non-zero. An optional list or dictionary counts when it is present and
non-empty. The value of the `AWS_DEFAULT_REGION` environment variable is a
parameter (`None` when unset). The account ID, which the source asks STS for,
is a parameter too.

## Model

| member | source | states |
|---|---|---|
| `Hr.EmployeeTable.constructor` | scripts/hr.py:9-12 | the table starts with employees 101 (Alice Johnson) and 102 (Bob Smith), in that order |
| `Hr.EmployeeTable.AddEmployee` | scripts/hr.py:28-32 | an existing ID fails with 400 "Employee ID already exists" and the table and order are unchanged; a fresh ID stores exactly the given record under it, leaves every other entry as it was, goes to the end of the iteration order, and the reply is the "added successfully" message |
| `Hr.EmployeeTable.ViewEmployee` | scripts/hr.py:35-38 | a present ID returns its stored record; a missing one fails with 404 "Employee not found"; the method modifies nothing |
| `Hr.EmployeeTable.UpdatePerformance` | scripts/hr.py:41-45 | a present ID gets only its `performance` replaced, so its name, position and salary, every other employee and the order are unchanged; a missing ID fails with 404 and changes nothing |
| `Hr.EmployeeTable.CalculatePayroll` | scripts/hr.py:48-55 | the loop modifies nothing and builds exactly the report of the table in iteration order; its total is the sum of the salaries in that order and equals the sum over all employees in the table |
| `Hr.AddThenView` | scripts/hr.py:28-38 | after a successful add of `(id, e)`, viewing `id` returns `e` |
| `Hr.SumSalariesIsSalaryTotal` | scripts/hr.py:51-53 | summing salaries along an order that lists every key exactly once gives the table's total, whatever that order is |
| `Hr.SalaryTotalRemove` | scripts/hr.py:51-53 | the table's salary total does not depend on which employee is counted first |
| `Hr.PayrollAfterAdd` | scripts/hr.py:31-53 | adding a fresh employee appends exactly one report line for that employee at the end and raises the total by that employee's salary |
| `Hr.PayrollIgnoresPerformance` | scripts/hr.py:43-54 | changing an employee's performance leaves the payroll report unchanged |
| `Hr.PayrollReportEnds` | scripts/hr.py:49-54 | with no employees the report is a newline and the total line; otherwise it ends with an empty line followed by the `Total Payroll` line |
| `Hr.PayrollReportLines` | scripts/hr.py:49-54 | when no ID or name holds a newline, the report splits into one `ID: .., Name: .., Salary: ..` line per employee in iteration order, then an empty line, then the `Total Payroll` line |
| `Text.IntToString` | scripts/hr.py:52 | an integer's decimal text is non-empty; it starts with '-' exactly for negative values; the rest is digits with no leading zero other than "0" itself |
| `Text.IntToStringValue` | scripts/hr.py:52-54 | the digits of an integer's text spell its absolute value: reading them back gives the number, after the '-' for a negative one |
| `Text.IntToStringInjective` | scripts/hr.py:54 | different integers are rendered as different texts, so the total line determines the total |
| `Text.NatToString` | deployment/aws/deploy.py:407 | the text of a natural number is non-empty and made of digits; it starts with '0' only when it is exactly "0", which happens only for 0 |
| `Text.ParseNatToString` | deployment/aws/deploy.py:407 | reading back the decimal text of a number gives that number |
| `Dockerfile.AdvancedDockerfile` | deployment/aws/deploy.py:276-282 | the Dockerfile opens with the `FROM {base_image}` header and closes with the COPY and CMD steps |
| `Dockerfile.BuildAdvancedDockerfile` | deployment/aws/deploy.py:276-282 | the loop builds exactly the specified text: the `FROM {base_image}` header, one `\nRUN {c}` step per build command in the given order, then `\nCOPY . .` and `\nCMD ["app.lambda_handler"]`; the text begins with the header and ends with the COPY and CMD steps |
| `Dockerfile.RunStepsAppend` | deployment/aws/deploy.py:279-280 | the RUN steps of two command lists in a row are the steps of their concatenation |
| `Dockerfile.RunStepsAt` | deployment/aws/deploy.py:279-280 | the step of the i-th command comes after the steps of all earlier commands and before those of all later ones |
| `Dockerfile.AdvancedDockerfileLines` | deployment/aws/deploy.py:276-282 | when neither the base image nor a command holds a newline, the Dockerfile's lines are an empty line, the FROM line, an indentation line, one `RUN` line per command in order and the COPY and CMD lines: k commands give k + 5 lines |
| `AwsNaming.ImageName` | deployment/aws/deploy.py:172 | the image name splits at ':' into exactly the repository and the tag, when neither holds a ':' |
| `AwsNaming.RegistryHost` | deployment/aws/deploy.py:181 | the registry host's dot-separated labels are the account, `dkr`, `ecr`, the region, `amazonaws` and `com`; the host holds no '/' unless the account or region does |
| `AwsNaming.ImageUri` | deployment/aws/deploy.py:204 | the image URI is the registry host, a '/', and the image name: its first '/' ends the host and the image name follows it |
| `AwsNaming.RoleArn` | deployment/aws/deploy.py:109 | the role ARN's colon-separated fields are `arn`, `aws`, `iam`, an empty region, the account and `role/{role_name}` |
| `AwsNaming.FunctionName` | deployment/aws/deploy.py:407 | the function name is the prefix, a '-', then digits with no leading zero that read back as the index |
| `AwsNaming.FunctionNameInjective` | deployment/aws/deploy.py:407 | two indices of one fleet never give the same function name |
| `AwsNaming.LogGroupName` | deployment/aws/deploy.py:426 | the log group is a path whose components are `aws`, `lambda` and the function name, when that name holds no '/' |
| `AwsNaming.LogGroupNameInjective` | deployment/aws/deploy.py:426 | different functions have different log groups |
| `AwsNaming.LogStreamNameInjective` | deployment/aws/deploy.py:507 | different functions log their invocations to different log streams |
| `AwsConfig.ResolveRegion` | deployment/aws/deploy.py:179 | the request's region when given; otherwise the environment variable's value when set; otherwise `us-west-2` |
| `AwsConfig.RegionEmptyOnlyFromEmptyEnvironment` | deployment/aws/deploy.py:179 | the resolved region is empty exactly when no region was requested and the environment variable is set but empty |
| `AwsConfig.MemorySize` | deployment/aws/deploy.py:222 | the requested memory size when it is given and non-zero, else 128; never 0 |
| `AwsConfig.EphemeralStorageSize` | deployment/aws/deploy.py:223-225 | the requested storage size when it is given and non-zero, else 512; never 0 |
| `AwsConfig.SizeDefaultsIdempotent` | deployment/aws/deploy.py:222-224 | feeding a resolved size back as the request gives the same size |
| `AwsConfig.CreateVpcConfig` | deployment/aws/deploy.py:226-229 | the VPC configuration is empty exactly when no VPC ID is given; otherwise it carries the subnet and security-group lists, empty when missing |
| `AwsConfig.CreateFunctionRequest` | deployment/aws/deploy.py:214-230 | the create request names the function, uses the execution role's ARN and the image URI in the resolved region, and is an image package that is published; its memory and storage are the requested sizes or the 128 and 512 defaults, never zero; its VPC configuration is the one built from the request, present exactly when a VPC ID is given |
| `AwsConfig.ConflictRequestsFor` | deployment/aws/deploy.py:231-248 | on the existing-function path the configuration is only updated when a VPC ID is given, and then always with a VPC configuration |
| `AwsConfig.ConflictPathAgreesWithCreate` | deployment/aws/deploy.py:214-248 | the existing-function path sends the same function name, image URI, memory, storage and VPC settings as the create path |
| `AwsConfig.BuildUpdateParams` | deployment/aws/deploy.py:742-753 | the parameters always hold `FunctionName`; `MemorySize`, `Timeout` and `Environment.Variables` are present exactly when their request field is truthy, and then hold that field's value; no other key appears |
| `Fleet.FleetNamesDistinct` | deployment/aws/deploy.py:406-507 | distinct indices give distinct function names, log groups and log streams |
| `Fleet.PlanDeployments` | deployment/aws/deploy.py:406-426 | for `n` functions the loop yields exactly `prefix-0 … prefix-(n-1)` in ascending order (none when `n` is negative, as `range` gives), each with the image URI in the requested region or else the environment's default, and its log group; all names and log groups are pairwise distinct |
| `Fleet.PlanInvocations` | deployment/aws/deploy.py:491-507 | the invocation loop addresses exactly `prefix-0 … prefix-(n-1)` in ascending order, each with its `/aws/lambda/{name}` log group and `{name}-invocation` log stream; all names, log groups and log streams are pairwise distinct |

## Left out

- Calls to external tools and provider SDKs are not modelled, as their behaviour is not part of this repository. This covers every `subprocess.run` (docker, aws CLI, pip, venv, curl, unzip) and every boto3 client call (ECR, Lambda, IAM, STS, Cost Explorer, Budgets, CUR, Pricing, CloudWatch, Logs, SNS, Bedrock, EC2). The "already exists" fallbacks around those calls only mirror provider behaviour.
- File writes are not modelled. This covers `app.py`, `requirements.txt`, `Dockerfile` and the uploaded files. The Dockerfile content string is modelled; writing it is not.
- The fixed Dockerfile of the basic deploy endpoint (deployment/aws/deploy.py:161-167) is a constant with no input, so it is not modelled.
- The catch-all mapping of exceptions to HTTP 500 in every handler is not modelled. It has no logic of its own.
- The Bedrock request body is not modelled. Its `temperature` and `top_p` are floats passed straight through.
- The mock VPC endpoints (deployment/aws/deploy.py:625-655) are not modelled. They echo their input or return constants.
- The endpoints' response dictionaries (messages, `image_uri`, `lambda_arn`), the IAM trust policy document and `log_retention_days` are not modelled. They are passed through or constant.
- `deploy_multiple_functions` reads `config.memory_size` and `config.storage_size`, which `FunctionConfig` does not declare (deployment/aws/deploy.py:417-418). In the source this fails in the first iteration. `Fleet.PlanDeployments` models the names the loop is written to produce. It has no memory or storage settings.
- `advanced_deploy` reads `request.memory_size` and `request.storage_size`, which `AdvancedDeployRequest` does not declare (deployment/aws/deploy.py:338-341). Its create and update requests are therefore not modelled. Only its Dockerfile text and names are.
- `invoke_multiple_functions` uses `time` without importing it (deployment/aws/deploy.py:517). It also stops at the first failed invocation. `Fleet.PlanInvocations` models the full sequence of names the loop is written to address.
- `Fleet.PlanDeployments`: the log group name is listed for every function, but the source creates the log group only when the function is newly created, not on the "already exists" path.
- The HR service's Gradio UI and its `httpx` wrappers (scripts/hr.py:58-112) are not modelled. They are UI and HTTP client code. The uvicorn server thread (scripts/hr.py:115-124) is not modelled either; it is concurrency.
- `AwsConfig.BuildUpdateParams`: `environment_variables` is an arbitrary Python `dict` in the source; the model takes a map from text to text, the shape Lambda accepts, so other key or value types are not modelled.
- Request validation by pydantic (types of the JSON fields) is not modelled. The model's inputs are already typed.
- `Hr.EmployeeTable.CalculatePayroll` also returns the running total as a second result. The endpoint returns only the report text, which ends with that total.
- deployment/gcp/deploy.py and deployment/azure/deploy.py are not part of this model. Their only logic is the same Dockerfile loop, which `Dockerfile.BuildAdvancedDockerfile` covers. The rest is SDK and CLI plumbing and stubs that return constant payloads.
- deployment/deploy_script.py is not part of this model. It is `os.system` plumbing. Its conditional VPC configuration is the one `AwsConfig.CreateVpcConfig` models.
