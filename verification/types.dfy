/** The records the service passes between its controllers, its queue and its status store. */
module Types {

  datatype Option<+T> = None | Some(value: T)

  /** The five lifecycle states a status record can hold. */
  datatype Status = Starting | Completed | Failed | Pending | Queued

  /** A status record as the status store hands it out and as the status route sends it. */
  datatype StatusUpdate = StatusUpdate(
    imageId: string,
    status: Status,
    lastModifiedDate: Option<string>,
    error: Option<string>)

  /** A generation job. The notification emitter and the response handle the source
      attaches to it are transport objects and are not part of this model. */
  datatype Job = Job(prompt: string, loraName: Option<string>, imageId: string)

  /** The introspection projection stored beside a job on the queue. */
  datatype ItemData = ItemData(prompt: string)

  /** One entry of the image queue. */
  datatype QueueItem = QueueItem(id: string, data: ItemData, job: Job)
}
