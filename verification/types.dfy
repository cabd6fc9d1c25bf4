/** The Dream API's task record, as the server returns it. */
module Types {
  import opened Errors

  /** Lifecycle state of a remote generation task. */
  datatype TaskState = Input | Generating | Completed | Failed

  /** How strongly an input image steers the generation. */
  datatype Weight = Low | Medium | High

  /** A previously uploaded image used as generation input. */
  datatype ImageInput = ImageInput(mediastoreId: string, weight: Weight)

  /** The parameters a task is configured with. */
  datatype InputSpec = InputSpec(
    style: int,
    prompt: string,
    displayFreq: Option<int>,
    inputImage: Option<ImageInput>)

  /** A snapshot of a remote task. The client never edits one in place; it replaces it with the next snapshot. */
  datatype Task = Task(
    id: string,
    userId: string,
    inputSpec: Option<InputSpec>,
    state: TaskState,
    premium: bool,
    createdAt: string,
    updatedAt: string,
    photoUrlList: seq<string>,
    generatedPhotoKeys: seq<string>,
    result: Option<string>)

  /** The copy `{ ...task, state: 'failed' }`: the same snapshot with only its state overwritten. */
  function MarkedFailed(task: Task): (r: Task)
    ensures r.state == Failed
    ensures r.(state := task.state) == task
    ensures task.state == Failed <==> r == task
  {
    task.(state := Failed)
  }
}
