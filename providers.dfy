/**
 The mock cloud backends and the closed set of platforms the dashboard offers.

 Each backend result is a Python dictionary from field name to value; the model keeps it as a
 map from string to string. Every function here is pure and deterministic.
 */
module Providers {
  import opened Wrappers

  type Record = map<string, string>

  /** The four choices of the platform radio, in the order the dashboard lists them. */
  datatype Platform = AWS | OpenStack | GCP | Azure

  /** The options of the platform radio, in the order the dashboard lists them. */
  const RadioOptions: seq<string> := ["AWS", "OpenStack", "GCP", "Azure"]

  /** The radio label of a platform, as the dispatch chain compares it. */
  function Name(p: Platform): (r: string)
    ensures r in RadioOptions
  {
    match p
    case AWS => "AWS"
    case OpenStack => "OpenStack"
    case GCP => "GCP"
    case Azure => "Azure"
  }

  /** The `if`/`elif` chain on the platform label: any other label reaches no branch. */
  function PlatformFromName(choice: string): (r: Option<Platform>)
    ensures r.Some? ==> Name(r.value) == choice
    ensures r.None? ==> forall p: Platform :: Name(p) != choice
  {
    if choice == "AWS" then Some(AWS)
    else if choice == "OpenStack" then Some(OpenStack)
    else if choice == "GCP" then Some(GCP)
    else if choice == "Azure" then Some(Azure)
    else None
  }

  lemma NameRoundTrip(p: Platform)
    ensures PlatformFromName(Name(p)) == Some(p)
  {
  }

  /** A create call succeeded and echoed `value` under `key`. */
  predicate Echoes(r: Record, key: string, value: string)
  {
    key in r && r[key] == value
  }

  predicate Succeeded(r: Record)
  {
    Echoes(r, "status", "success")
  }

  // ---- The mock backends ----

  function CreateVmOpenstack(name: string, flavor: string, image: string): (r: Record)
    ensures Succeeded(r) && Echoes(r, "vm_id", "os123")
    ensures Echoes(r, "name", name) && Echoes(r, "flavor", flavor) && Echoes(r, "image", image)
    ensures r.Keys == {"status", "vm_id", "name", "flavor", "image"}
  {
    map["status" := "success", "vm_id" := "os123", "name" := name, "flavor" := flavor, "image" := image]
  }

  function ListVmsOpenstack(): (rs: seq<Record>)
    ensures |rs| == 1 && Echoes(rs[0], "vm_id", "os123") && Echoes(rs[0], "status", "active")
    ensures Echoes(rs[0], "name", "OpenStack_VM") && rs[0].Keys == {"vm_id", "name", "status"}
  {
    [map["vm_id" := "os123", "name" := "OpenStack_VM", "status" := "active"]]
  }

  function CreateInstanceAws(name: string, instanceType: string): (r: Record)
    ensures Succeeded(r) && Echoes(r, "instance_id", "aws123")
    ensures Echoes(r, "name", name) && Echoes(r, "type", instanceType)
    ensures r.Keys == {"status", "instance_id", "name", "type"}
  {
    map["status" := "success", "instance_id" := "aws123", "name" := name, "type" := instanceType]
  }

  function ListInstancesAws(): (rs: seq<Record>)
    ensures |rs| == 1 && Echoes(rs[0], "instance_id", "aws123") && Echoes(rs[0], "status", "running")
    ensures Echoes(rs[0], "name", "AWS_Instance") && rs[0].Keys == {"instance_id", "name", "status"}
  {
    [map["instance_id" := "aws123", "name" := "AWS_Instance", "status" := "running"]]
  }

  function CreateInstanceGcp(name: string, machineType: string): (r: Record)
    ensures Succeeded(r) && Echoes(r, "instance_id", "gcp123")
    ensures Echoes(r, "name", name) && Echoes(r, "type", machineType)
    ensures r.Keys == {"status", "instance_id", "name", "type"}
  {
    map["status" := "success", "instance_id" := "gcp123", "name" := name, "type" := machineType]
  }

  function ListInstancesGcp(): (rs: seq<Record>)
    ensures |rs| == 1 && Echoes(rs[0], "instance_id", "gcp123") && Echoes(rs[0], "status", "running")
    ensures Echoes(rs[0], "name", "GCP_Instance") && rs[0].Keys == {"instance_id", "name", "status"}
  {
    [map["instance_id" := "gcp123", "name" := "GCP_Instance", "status" := "running"]]
  }

  function CreateInstanceAzure(name: string, size: string): (r: Record)
    ensures Succeeded(r) && Echoes(r, "instance_id", "azure123")
    ensures Echoes(r, "name", name) && Echoes(r, "size", size)
    ensures r.Keys == {"status", "instance_id", "name", "size"}
  {
    map["status" := "success", "instance_id" := "azure123", "name" := name, "size" := size]
  }

  function ListInstancesAzure(): (rs: seq<Record>)
    ensures |rs| == 1 && Echoes(rs[0], "instance_id", "azure123") && Echoes(rs[0], "status", "running")
    ensures Echoes(rs[0], "name", "Azure_Instance") && rs[0].Keys == {"instance_id", "name", "status"}
  {
    [map["instance_id" := "azure123", "name" := "Azure_Instance", "status" := "running"]]
  }

  // ---- What the dashboard does with each platform ----

  /** The audit label the dashboard logs for a create on `p`. */
  function CreateLabel(p: Platform): (r: string)
    ensures r == "Create VM" <==> p == OpenStack
    ensures p != OpenStack ==> r == "Create Instance"
  {
    if p == OpenStack then "Create VM" else "Create Instance"
  }

  /** The resource name the dashboard's create button passes to the backend of `p`. */
  function TestResourceName(p: Platform): (r: string)
    ensures r == Name(p) + (if p == OpenStack then "_Test_VM" else "_Test_Instance")
  {
    match p
    case AWS => "AWS_Test_Instance"
    case OpenStack => "OpenStack_Test_VM"
    case GCP => "GCP_Test_Instance"
    case Azure => "Azure_Test_Instance"
  }

  /** The field under which the backend of `p` reports the resource identifier. */
  function IdField(p: Platform): (r: string)
    ensures r == "vm_id" <==> p == OpenStack
    ensures p != OpenStack ==> r == "instance_id"
  {
    if p == OpenStack then "vm_id" else "instance_id"
  }

  /** The create button of platform `p`: its backend called with the dashboard's fixed arguments. */
  function CreateOn(p: Platform): (r: Record)
    ensures Succeeded(r) && Echoes(r, "name", TestResourceName(p))
    ensures IdField(p) in r && r[IdField(p)] == ListOn(p)[0][IdField(p)]
    ensures p == AWS ==> Echoes(r, "type", "t2.micro")
    ensures p == OpenStack ==> Echoes(r, "flavor", "m1.small") && Echoes(r, "image", "Ubuntu")
    ensures p == GCP ==> Echoes(r, "type", "n1-standard-1")
    ensures p == Azure ==> Echoes(r, "size", "Standard_DS1_v2")
  {
    match p
    case AWS => CreateInstanceAws("AWS_Test_Instance", "t2.micro")
    case OpenStack => CreateVmOpenstack("OpenStack_Test_VM", "m1.small", "Ubuntu")
    case GCP => CreateInstanceGcp("GCP_Test_Instance", "n1-standard-1")
    case Azure => CreateInstanceAzure("Azure_Test_Instance", "Standard_DS1_v2")
  }

  /** The list button of platform `p`. */
  function ListOn(p: Platform): (rs: seq<Record>)
    ensures |rs| == 1 && IdField(p) in rs[0]
  {
    match p
    case AWS => ListInstancesAws()
    case OpenStack => ListVmsOpenstack()
    case GCP => ListInstancesGcp()
    case Azure => ListInstancesAzure()
  }

  /** The mock backends agree: the one resource each lists is the one its create returns. */
  lemma ListShowsCreatedResource(p: Platform)
    ensures ListOn(p)[0][IdField(p)] == CreateOn(p)[IdField(p)]
  {
  }
}
