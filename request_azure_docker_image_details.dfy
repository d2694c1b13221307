/**
 * `RequestAzureDockerImageDetails`: the Azure operation that answers a
 * DockerImageDetailsRequested by asking for the Docker image, passing on the
 * registry details the request carries in its metadata.
 */
module AzureDockerImageDetails {
  import opened Wrappers
  import opened Events
  import opened Backend
  import AzureInfrastructureUpdate
  import AzureDockerResourcesUpdate

  /** The metadata of the image request: three fixed entries, and the two registry entries copied from the request (`None` when absent). */
  function ImageRequestMetadata(requestMetadata: Metadata): (m: Metadata)
    ensures m.Keys == {"variant", "python_version", "azure_base_image_version", "credential_name", "docker_registry_url"}
    ensures m["variant"] == Some("azure") && m["python_version"] == Some("3.11") && m["azure_base_image_version"] == Some("4")
    ensures m["credential_name"] == Get(requestMetadata, "credential_name")
    ensures m["docker_registry_url"] == Get(requestMetadata, "docker_registry_url")
  {
    map["variant" := Some("azure"), "python_version" := Some("3.11"), "azure_base_image_version" := Some("4"),
        "credential_name" := Get(requestMetadata, "credential_name"),
        "docker_registry_url" := Get(requestMetadata, "docker_registry_url")]
  }

  /** `perform`: exactly one event, a request for licdata:latest, built without a chain. */
  function Perform(request: Event, newId: EventId): (events: seq<Event>)
    requires request.DockerImageDetailsRequested?
    ensures |events| == 1 && events[0].DockerImageRequested? && events[0].id == newId
    ensures events[0].imageName == "licdata" && events[0].imageVersion == "latest"
    ensures events[0].previousEventIds == []
    ensures events[0].metadata == ImageRequestMetadata(request.metadata)
  {
    [DockerImageRequested(newId, [], "licdata", "latest", ImageRequestMetadata(request.metadata))]
  }

  /**
   * When the request names a registry secret and url, `perform` asks for the
   * same image, with the same metadata, as the Docker operation's
   * `request_docker_image` given that secret and url.
   */
  lemma PerformAgreesWithDockerOperation(request: Event, newId: EventId, secretName: string, registryUrl: string)
    requires request.DockerImageDetailsRequested?
    requires Get(request.metadata, "credential_name") == Some(secretName)
    requires Get(request.metadata, "docker_registry_url") == Some(registryUrl)
    ensures Perform(request, newId) == [AzureDockerResourcesUpdate.RequestDockerImage(secretName, registryUrl, newId)]
  {
    var m := ImageRequestMetadata(request.metadata);
    var other := AzureDockerResourcesUpdate.RequestDockerImage(secretName, registryUrl, newId).metadata;
    assert m.Keys == other.Keys;
    assert forall k | k in m :: m[k] == other[k];
  }

  /**
   * Registry details flow through: when the request's metadata is the
   * credentials dictionary of the infrastructure operation, the image request
   * names the registry user and url the stack outputs hold.
   */
  lemma CredentialsFlowIntoImageRequest(request: Event, newId: EventId, result: StackResult)
    requires request.DockerImageDetailsRequested?
    requires request.metadata == AzureInfrastructureUpdate.RetrieveContainerRegistryCredentials(result)
    ensures Perform(request, newId)[0].metadata["credential_name"] == OutputOrNone(result.outputs, RegistryUsernameOutput)
    ensures Perform(request, newId)[0].metadata["docker_registry_url"] == OutputOrNone(result.outputs, RegistryUrlOutput)
    ensures "credential_password" !in Perform(request, newId)[0].metadata
  {
  }

  /** `instantiate` always raises: the operation is only built from a request. */
  function Instantiate(): (r: Result<(), Raised>)
    ensures r.Failure? && r.error.InvalidOperationError?
  {
    Failure(InvalidOperationError("Cannot instantiate RequestAzureDockerImageDetails directly"))
  }
}
