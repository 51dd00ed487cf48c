/** `TTSService` as a construct-once singleton: the class keeps its one instance in a class
    field, and `output_dir` is set only when that instance is first created. */
module Service {
  import opened Exceptions

  /** The service instance and the one field construction sets on it. */
  class TTSService {
    var outputDir: Option<string>

    constructor(outputDir: Option<string>)
      ensures this.outputDir == outputDir
    {
      this.outputDir := outputDir;
    }
  }

  /** The class object, holding `_instance`. */
  class TTSServiceClass {
    var instance: TTSService?

    constructor()
      ensures instance == null
    {
      instance := null;
    }

    /** `TTSService(output_dir)`: the first call creates the instance with `output_dir`; every
        later call returns that same instance and leaves its `output_dir` as it is. */
    method New(outputDir: Option<string>) returns (service: TTSService)
      modifies this
      ensures old(instance) == null ==> fresh(service) && service.outputDir == outputDir
      ensures old(instance) != null ==> service == old(instance) && service.outputDir == old(instance.outputDir)
      ensures instance == service
    {
      if instance == null {
        instance := new TTSService(outputDir);
      }
      service := instance;
    }
  }

  /** Two constructions in a row give one instance, whose `output_dir` is the first call's. */
  method ConstructTwice(first: Option<string>, second: Option<string>) returns (a: TTSService, b: TTSService)
    ensures a == b && b.outputDir == first
  {
    var cls := new TTSServiceClass();
    a := cls.New(first);
    b := cls.New(second);
  }
}
