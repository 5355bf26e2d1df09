/**
  The deployment parameters of the CDK app: the per-function parameter table
  and the resource-name formatter.
*/
module Paramater {
  import opened Wrappers
  import opened Json
  import TextApi

  /** The parameters of one Lambda function: its environment and memory size. */
  datatype LambdaParam = LambdaParam(env: map<string, string>, memorySize: nat)

  /** `paramater`: the table under "lambda", keyed by function name. */
  const Paramater: map<string, map<string, LambdaParam>> := map[
    "lambda" := map[
      "text_api" := LambdaParam(
        map["LOG_LEVEL" := "INFO", "MODEL_ID" := "ai21.j2-mid-v1"],
        128)
    ]
  ]

  const NamePrefix := "bedrocktest-"

  /** `build_name`: "bedrocktest-{service}-{hostname}". */
  function BuildName(service: string, hostname: string): (name: string)
    ensures |name| == |service| + |hostname| + 13
    ensures name[..|NamePrefix|] == NamePrefix
    ensures name[|NamePrefix|..|NamePrefix| + |service|] == service
    ensures name[|name| - |hostname| - 1..] == "-" + hostname
  {
    NamePrefix + service + "-" + hostname
  }

  /** For one service, distinct hostnames give distinct names. */
  lemma BuildNameInjective(service: string, hostname1: string, hostname2: string)
    requires BuildName(service, hostname1) == BuildName(service, hostname2)
    ensures hostname1 == hostname2
  {
    var n := BuildName(service, hostname1);
    assert |hostname1| == |hostname2|;
    assert "-" + hostname1 == n[|n| - |hostname1| - 1..] == "-" + hostname2;
    assert hostname1 == ("-" + hostname1)[1..] == ("-" + hostname2)[1..] == hostname2;
  }

  /** For one hostname, distinct services give distinct names. */
  lemma BuildNameInjectiveInService(service1: string, service2: string, hostname: string)
    requires BuildName(service1, hostname) == BuildName(service2, hostname)
    ensures service1 == service2
  {
  }

  /** Over both arguments the names can collide: a "-" may move between them. */
  lemma BuildNameCollides()
    ensures BuildName("a-b", "c") == BuildName("a", "b-c")
  {
  }

  /** The table's `text_api` entry. */
  function TextApiParam(): (p: LambdaParam)
    ensures "MODEL_ID" in p.env && p.env["MODEL_ID"] == "ai21.j2-mid-v1"
    ensures p.memorySize == 128
  {
    Paramater["lambda"]["text_api"]
  }

  /** Any environment that holds the `text_api` table's variables resolves to
      the configured model, whatever else the runtime adds. */
  lemma DeployedEnvironmentResolves(environ: map<string, string>, c: Codec)
    requires forall k :: k in TextApiParam().env ==> k in environ && environ[k] == TextApiParam().env[k]
    ensures TextApi.FromEnv(environ, c) == Ok(TextApi.EnvParam("ai21.j2-mid-v1"))
    ensures TextApi.FromEnvAsWritten(environ) == Ok(TextApi.EnvParam("ai21.j2-mid-v1"))
  {
  }
}
