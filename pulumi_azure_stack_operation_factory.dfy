/**
 * `PulumiAzureStackOperationFactory`: picks the Azure operation that answers
 * a request, by the request's class.
 */
module OperationFactory {
  import opened Wrappers
  import opened Events
  import Backend

  /**
   * The operation `new` builds, named by its class and holding the request
   * it wraps (the class models are in AzureDockerImageDetails,
   * AzureDockerResourcesUpdate and AzureInfrastructureUpdate).
   */
  datatype StackOperation =
    | RequestAzureDockerImageDetails(request: Event)
    | UpdateAzureDockerResourcesWithPulumi(request: Event)
    | UpdateAzureInfrastructureWithPulumi(request: Event)

  /** The factory holds no state. */
  datatype PulumiAzureStackOperationFactory = PulumiAzureStackOperationFactory
  {
    /**
     * `new`: an image-details request, a Docker-resources update request and
     * an infrastructure update request each get their operation, wrapping the
     * very request given; every other event, the two removal requests
     * included, gets none, and nothing is raised. So every operation built
     * wraps a request of the class its constructor takes.
     */
    function New(e: Event): (r: Option<StackOperation>)
      ensures r == Some(RequestAzureDockerImageDetails(e)) <==> e.DockerImageDetailsRequested?
      ensures r == Some(UpdateAzureDockerResourcesWithPulumi(e)) <==> e.DockerResourcesUpdateRequested?
      ensures r == Some(UpdateAzureInfrastructureWithPulumi(e)) <==> e.InfrastructureUpdateRequested?
      ensures r.Some? ==> r.value.request == e
      ensures r == None <==> !(e.DockerImageDetailsRequested? || e.DockerResourcesUpdateRequested? || e.InfrastructureUpdateRequested?)
    {
      if e.DockerImageDetailsRequested? then Some(RequestAzureDockerImageDetails(e))
      else if e.DockerResourcesUpdateRequested? then Some(UpdateAzureDockerResourcesWithPulumi(e))
      else if e.InfrastructureUpdateRequested? then Some(UpdateAzureInfrastructureWithPulumi(e))
      else None
    }
  }

  /**
   * `instantiate`: unlike the operations it builds, whose `instantiate`
   * always raises, the factory can be instantiated, and nothing is raised.
   */
  function Instantiate(): (r: Result<PulumiAzureStackOperationFactory, Backend.Raised>)
    ensures r.Success?
  {
    Success(PulumiAzureStackOperationFactory)
  }

  /** The removal requests are left unanswered by this factory. */
  lemma RemovalRequestsUnanswered(e: Event)
    requires e.InfrastructureRemovalRequested? || e.DockerResourcesRemovalRequested?
    ensures Instantiate().value.New(e) == None
  {
  }
}
