/** `ensureDockerImage`: an exact-tag presence check over the engine's image
    list, and, only when the tag is absent, a build from a context directory
    chosen by substring matching on the image name. */
module ImageResolver {
  import opened Wrappers
  import opened Text
  import opened Engine
  import Templates

  /** Some image lists `name` among its `RepoTags`, compared exactly. */
  predicate ImageExists(images: seq<Image>, name: string) {
    exists img | img in images :: img.repoTags.Some? && name in img.repoTags.value
  }

  /** Presence is membership in the set of all tags. */
  lemma {:induction false} ImageExistsIffTagged(images: seq<Image>, name: string)
    ensures ImageExists(images, name) <==> name in Tags(images)
  {
    if images != [] {
      var init := images[..|images| - 1];
      var last := images[|images| - 1];
      ImageExistsIffTagged(init, name);
      assert images == init + [last];
      if ImageExists(images, name) {
        var img :| img in images && img.repoTags.Some? && name in img.repoTags.value;
        if img != last {
          assert img in init;
        }
      }
      if name in Tags(images) && name !in Tags(init) {
        assert last.repoTags.Some? && name in last.repoTags.value;
      }
    }
  }

  /** The build context directory, by the first of "python", "nodejs",
      "mern" that occurs in the image name; `None` when none does. */
  function BuildContext(imageName: string): (r: Option<string>)
    ensures r == Some("./docker/python") <==> Contains(imageName, "python")
    ensures r == Some("./docker/nodejs") <==> !Contains(imageName, "python") && Contains(imageName, "nodejs")
    ensures r == Some("./docker/mern") <==>
      !Contains(imageName, "python") && !Contains(imageName, "nodejs") && Contains(imageName, "mern")
    ensures r.None? <==>
      !Contains(imageName, "python") && !Contains(imageName, "nodejs") && !Contains(imageName, "mern")
  {
    if Contains(imageName, "python") then Some("./docker/python")
    else if Contains(imageName, "nodejs") then Some("./docker/nodejs")
    else if Contains(imageName, "mern") then Some("./docker/mern")
    else None
  }

  /** Every catalog image builds from the directory named after its
      template: `./docker/python`, `./docker/nodejs` and `./docker/mern`. */
  lemma CatalogImagesHaveContexts(t: string)
    requires t in Templates.Known
    ensures BuildContext(Templates.TemplateImage(t).value) == Some("./docker/" + t)
  {
    var image := Templates.TemplateImage(t).value;
    if t == "python" {
      assert image == "devpod-python:latest" && "./docker/" + t == "./docker/python";
      PythonImageContext();
    } else if t == "nodejs" {
      assert image == "devpod-nodejs:latest" && "./docker/" + t == "./docker/nodejs";
      NodeImageContext();
    } else {
      assert image == "devpod-mern:latest" && "./docker/" + t == "./docker/mern";
      MernImageContext();
    }
  }

  lemma PythonImageContext()
    ensures BuildContext("devpod-python:latest") == Some("./docker/python")
  {
    var name := "devpod-python:latest";
    assert name[7..13] == "python";
    ContainsAt(name, "python", 7);
  }

  lemma NodeImageContext()
    ensures BuildContext("devpod-nodejs:latest") == Some("./docker/nodejs")
  {
    var name := "devpod-nodejs:latest";
    assert name[7..13] == "nodejs";
    ContainsAt(name, "nodejs", 7);
    NotContainsWithoutChar(name, "python", 'y');
  }

  lemma MernImageContext()
    ensures BuildContext("devpod-mern:latest") == Some("./docker/mern")
  {
    var name := "devpod-mern:latest";
    assert name[7..11] == "mern";
    ContainsAt(name, "mern", 7);
    NotContainsWithoutChar(name, "python", 'y');
    NotContainsWithoutChar(name, "nodejs", 'j');
  }

  /** Matching is case-sensitive: an upper-case template name in an image
      tag resolves to no context. */
  lemma UpperCaseNameHasNoContext()
    ensures BuildContext("devpod-MERN:latest").None?
  {
    NotContainsWithoutChar("devpod-MERN:latest", "python", 'y');
    NotContainsWithoutChar("devpod-MERN:latest", "nodejs", 'j');
    NotContainsWithoutChar("devpod-MERN:latest", "mern", 'm');
  }

  /** Every failure inside `ensureDockerImage` is rethrown in this form. */
  function BuildFailure(imageName: string, cause: string): string {
    "Failed to build Docker image: " + imageName + ". Error: " + cause
  }

  function UnknownImage(imageName: string): string {
    "Unknown template for image: " + imageName
  }

  /** What `ensureDockerImage` settles on for an image list: nothing to do
      for a present image, otherwise the build's outcome, every failure
      wrapped as a build failure. */
  function ImageOutcome(images: seq<Image>, imageName: string, buildFault: Option<string>): Outcome {
    if ImageExists(images, imageName) then Pass
    else if BuildContext(imageName).None? then Fail(BuildFailure(imageName, UnknownImage(imageName)))
    else if buildFault.Some? then Fail(BuildFailure(imageName, buildFault.value))
    else Pass
  }

  /** The image list after `ensureDockerImage`: only a missing image with a
      build context and a build that does not fail is added. */
  function ImagesAfter(images: seq<Image>, imageName: string, buildFault: Option<string>): seq<Image> {
    if !ImageExists(images, imageName) && BuildContext(imageName).Some? && buildFault.None?
    then images + [Image(Some([imageName]))]
    else images
  }

  /** `ensureDockerImage(imageName)` against `engine`; `buildFault` is the
      error the build would report. */
  method EnsureDockerImage(engine: Engine, imageName: string, buildFault: Option<string>) returns (r: Outcome)
    modifies engine
    ensures ImageExists(old(engine.images), imageName) ==> r == Pass && engine.images == old(engine.images)
    ensures !ImageExists(old(engine.images), imageName) && BuildContext(imageName).None? ==>
      r == Fail(BuildFailure(imageName, UnknownImage(imageName))) && engine.images == old(engine.images)
    ensures !ImageExists(old(engine.images), imageName) && BuildContext(imageName).Some? && buildFault.Some? ==>
      r == Fail(BuildFailure(imageName, buildFault.value)) && engine.images == old(engine.images)
    ensures !ImageExists(old(engine.images), imageName) && BuildContext(imageName).Some? && buildFault.None? ==>
      r == Pass && engine.images == old(engine.images) + [Image(Some([imageName]))]
    ensures r == ImageOutcome(old(engine.images), imageName, buildFault)
    ensures engine.images == ImagesAfter(old(engine.images), imageName, buildFault)
    ensures r.Pass? ==> ImageExists(engine.images, imageName)
    ensures engine.volumes == old(engine.volumes) && engine.containers == old(engine.containers)
  {
    if ImageExists(engine.images, imageName) {
      return Pass;
    }
    var context := BuildContext(imageName);
    if context.None? {
      return Fail(BuildFailure(imageName, UnknownImage(imageName)));
    }
    var built := engine.BuildImage(imageName, context.value, buildFault);
    if built.Fail? {
      return Fail(BuildFailure(imageName, built.message));
    }
    assert Image(Some([imageName])) in engine.images;
    r := Pass;
  }
}
