# Verification of the transfer control plane

A Dafny model of the stateful core of the file-transfer control plane, and proofs about what it
keeps over whole runs. Five components are covered:

- **Job and track manager** (`pkg/job.go` with the records of `pkg/models/job.go`): the write-through
  job cache with its running counter, the two-way index of tracked jobs, the progress of each file,
  the notifications.
- **Schedulers** (`transfer/task/roundrobin.go`, `nas_rr.go`, `rr_upload.go`, `restrict.go`,
  `default_scheduler.go`, and the node manager of `transfer/node.go`): the filtered round robin, the
  queues per zone, the expiring affinity, and the upload policy made of them.
- **Segmentation and names** (`pkg/pkg.go`, `getFileDetail`).
- **Task manager** (`transfer/task/task.go`): the task table, the nodes' task counts, what observers
  see, the ring of bitrate samples and its statistics.
- **Requests and responses** (`Node` in `transfer/node.go`): sequence numbers, pending requests and
  one-slot channels under arbitrary interleaving.

## Layout

Each component has a layer of values, in which an operation is a function from one state to the
next and a run is a sequence of events, and a layer of objects, in which the operation is a method
that updates fields, maps, queues and arrays in place and is proved to leave exactly the state of
the function. The theorems are about all runs of the value layer. Some say what a run keeps; the modules
`JobHistory`, `JobRows`, `JobOccasions`, `TaskHistory`, `ZoneHistory` and `Replies` say what is in every
record at the end of a run in terms of its events alone: what the latest event that sets a column has
set, and what was queued, told or returned on which occasion.

| component | values and theorems | objects |
|---|---|---|
| jobs | `Jobs`, `JobTables`, `JobCounter`, `JobIndex`, `JobAgreement`, `JobSender`, `JobNotices`, `JobSizes`, `Completion`, `JobCompletion`, `JobHistory`, `JobRows`, `JobOccasions`, `TrackIndex`, `JobExamples` | `JobManager` (module `JobManagement`) |
| schedulers | `RoundRobin`, `ZoneIndex`, `ZoneHistory`, `Dispatch`, `DispatchChoice` | `RoundRobin`, `NodeManager` (module `Nodes`), `Schedulers` |
| segments | `Segmentation`, `Names` | `Unpacker` |
| tasks | `TaskTable`, `TaskHistory`, `Bitrates` | `TaskManager` (module `TaskManagement`), `Bitrates` |
| requests | `Correlation`, `Replies` | `Connection` (module `Connections`) |

The order in which Go ranges over a map is arbitrary; the events carry it as a sequence that lists
the map's keys once each. Time is an argument. The database is a set of maps, one per table.

## Where the code does not do what it promises

Each of these has a concrete input or run and its exact condition:

- The tracked jobs drift from what a reload would track when a finished upload is started again
  (`JobExamples.IndexCanDrift`), and when a job is created for a package with nothing to transfer
  (`JobExamples.EmptyJobIsTracked`). `JobAgreement.SafeExactlyWhereReached` names, event by event and in
  every reachable state, exactly when they do not; `JobAgreement.AgreesThroughoutExactly` does so for
  whole runs.
- The cached counter falls below the true count by one for each write to a detail already DONE
  (`JobCounter.CounterDrift`), so a job can be finished, and no longer tracked, with a file still open
  (`JobExamples.JobCanFinishEarly`); exactly when is `JobCounter.FinishedWhenCountedDown`.
- The size stored with a package is a 64-bit sum, so nothing seems left of a package of 2^64 bytes
  (`JobExamples.SizeCanOverflow`); exactly when the size left is right is `JobSizes.LeftSizeExactly`.
- In pid mode a file can be split between nodes (`Dispatch.PidModeCanSplitAFile`); exactly when is
  `Dispatch.OneNodePerFileExactly`.
- A login under a node id that is still online leaves the old connection in the queues
  (`ZoneIndex.TakenOver`), and the end of the old connection then logs the new one out
  (`ZoneIndex.OldConnectionLogsNewOut`). A second login on one connection, be it under another node id,
  enters it into the upload queue twice (`ZoneIndex.EnteredTwice`). These are all logins after which the
  queues are wrong (`ZoneIndex.LoginAgreesExactly`).
- The old connection is closed twice, and the second time panics if a request of the first time is
  still pending (`Correlation.SecondCloseCanCrash`); exactly then, by `Correlation.CloseCrashesExactly`.
- A second response to a request can leave the handler waiting with the lock for ever
  (`Correlation.HandlerCanGetStuck`, `Correlation.StuckForever`). It waits exactly if an earlier
  response was announced that the caller has not received (`Correlation.BlocksExactly`), and goes on
  exactly if the caller is waiting at the channel (`Correlation.WaitingReleases`).
- A report of a task that is no longer in the table brings it back from the database; its second end
  is then seen as a second deletion and is taken off the node's count once more
  (`TaskTable.TaskCanBeDeletedTwice`); exactly when are `TaskTable.SeenKeptExactly` and
  `TaskTable.CountsKeptExactly`.
- The running minimum of the bitrates is wrong if a zero sample is followed by a non-zero one
  (`Bitrates.MinCanBeWrong`, `Bitrates.MinExactly`).
- Cutting a file never ends for some configurations whose product overflows
  (`Segmentation.CuttingCanRunForever`, `Segmentation.CuttingEndsExactly`), and the configured number
  of segments is exceeded for some (`Segmentation.ConfigCapsExactly`).
- Job ids of users with ids of different lengths can collide (`Names.HashJobCanCollide`); for which
  ids is `Names.HashJobCollidesExactly`.

## Model

| member | source | states |
|---|---|---|
| `JobAgreement.IndexRefinesReload` | pkg/job.go:637-659 | Over every run of safe events the incrementally kept tracks equal what a reload would track: the unfinished jobs, and the uploads of packages with an unfinished download |
| `JobAgreement.SafeExactly` | pkg/job.go:479-570 | Where the tracks agree with a reload, with counters drifted as far as they may, an event keeps the agreement if and only if it is safe |
| `JobAgreement.SafeExactlyWhereReached` | pkg/job.go:302-321 | The same in every reachable state in which the tracks agree, whatever the packages hold; only their creation makes an upload, so each has one uploader |
| `JobAgreement.AgreesThroughoutExactly` | pkg/job.go:150-287 | Over any such run the tracks agree with a reload after every event if and only if every event is safe where it happens |
| `JobAgreement.NotifySafe` | pkg/job.go:415-466 | Exact condition for a report: it reopens no untracked job, and does not retire a job while the details left open are no more than the drift of its counter and its own hit, unless a download covers it |
| `JobAgreement.EmptySegsSafe` | api/controllers/transfer.go:161-182 | Exact condition for a request without segments, including one for a file the job does not have |
| `JobAgreement.AddTaskSafe` | pkg/job.go:348-381 | Exact condition for a dispatched task: restarting a DONE detail is safe only while the job is tracked |
| `JobAgreement.CreateSafe` | pkg/job.go:150-262 | Creating or re-creating a job keeps the agreement exactly if the job is not soft-deleted, and has something to transfer or is an upload that is being downloaded |
| `JobAgreement.DeleteSafe` | pkg/job.go:265-287 | Deleting a job keeps the agreement exactly if it is no live upload of a package still being downloaded |
| `JobAgreement.DeletePkgSafe` | api/controllers/pkg.go:931-953 | Deleting a package, downloads first and then its own track, always keeps the agreement |
| `JobAgreement.RestartInvisibleExactly` | pkg/job.go:637-689 | A restart, with the synchronisation of job states before it, leaves the tracks as they were if and only if they agreed with a reload |
| `JobAgreement.StepGrounded` | pkg/job.go:289-323 | Every possible event keeps the counters positive and never above the true count, and the tables together, and no package gets a second uploader |
| `JobIndex.DelTrackAgrees` | pkg/job.go:510-543 | Untracking a settled job of a package with at most one uploader, with the refusal for uploads and the cascade, leaves exactly the jobs of the package that a reload would track |
| `JobIndex.ProcessExactly` | pkg/job.go:752-786 | After a write to one job, finishing it keeps the agreement if and only if it is really finished, or still covered by a download of its package |
| `JobIndex.CascadePrefix` | pkg/job.go:521-542 | For any number of uploaders and any order, the cascade untracks exactly those visited before the first whose upload is unfinished |
| `JobExamples.IndexCanDrift` | pkg/job.go:348-371 | In the run that uploads a file and starts its upload again, the tracks agree with a reload before the last event and not after it |
| `JobExamples.EmptyJobIsTracked` | api/controllers/pkg.go:677-751 | After the upload of a package with one empty file is created it is tracked, while a reload would not track it; before, the two agreed |
| `JobExamples.JobCanFinishEarly` | pkg/job.go:437-439 | In the run in which the end of one file is reported twice, the job is counted as finished and untracked with a file still open |
| `JobCounter.CounterDrift` | pkg/job.go:302-321 | In every reachable state a cached job's counter plus the hits on DONE details since it was cached is the true number of unfinished details, and the counter is positive |
| `JobCounter.FinishedWhenCountedDown` | pkg/job.go:739-750 | A report, or a request without segments even for a file the job does not have, finishes an unfinished job if and only if the details still open are no more than the hits so far; without hits, exactly when none is open |
| `JobCounter.StepDrifts` | pkg/job.go:437-439 | Each event changes the difference between counter and true count of a job by its hit, and by nothing else |
| `JobSender.SenderSeesReceivers` | pkg/job.go:174-182 | In every state of every run, while a download of a package is tracked every upload of it that is not soft-deleted is tracked too |
| `JobSender.DelTrackSees` | pkg/job.go:510-543 | Untracking keeps that: an upload is refused while a download is tracked, and uploads go only after the last download |
| `JobNotices.NotifiedAtMostOnce` | pkg/job.go:373-380 | Over every run a job record causes its start notification and each finish notification at most once, across eviction, reload and re-creation |
| `JobNotices.FinishedExactlyOnce` | notify/notify.go:158-212 | While notifications are on and the process is not restarted, a record counted as finished was announced exactly once to each addressee |
| `JobTables.RunKeepsTables` | pkg/models/job.go:199-229 | In every reachable state each job has details for exactly the files of its package, and only uploads are soft-deleted |
| `JobTables.DeleteDownloadsTables` | pkg/job.go:265-287 | Deleting the downloads of a package removes exactly their job and detail rows |
| `JobSizes.RunWithin` | pkg/job.go:72-82 | In every reachable state an upload's finished size and finished segments stay within the file's |
| `JobSizes.TransferredFits` | pkg/models/job.go:303-315 | In every reachable state what an upload has transferred and what it has still open fit into the files of its package together |
| `JobSizes.RunStored` | api/controllers/pkg.go:688-702 | In every reachable state the size stored with a package is that of its files modulo 2^64 |
| `JobSizes.LeftSizeExactly` | api/controllers/transfer.go:302-313 | The remaining size computed in 64 bits is the true one, and covers everything still open, if and only if less than 2^64 bytes are left |
| `JobExamples.SizeCanOverflow` | api/controllers/pkg.go:688-691 | After creating a package of two files of 2^63 bytes nothing seems left while 2^64 bytes are open |
| `Completion.FileCompletes` | pkg/job.go:61-100 | For one detail, after any interleaving of reports in which each segment ends once: the finished count and size are those of the ended segments, and the detail is DONE exactly when all have ended, with the file's size |
| `Completion.EndedAt` | pkg/job.go:72-82 | The limits on finished size and finished segments are never reached by a single ended segment |
| `Completion.ManagerRecords` | pkg/job.go:415-466 | The manager's handling of a report stores exactly the progress step of that file's detail and changes no other |
| `JobCompletion.TransferFollowsReports` | pkg/job.go:348-466 | Over any run from a restarted detail, with reports, partial tasks and task ends of the file amid everything other jobs and files do and restarts: the detail counts exactly the segments ended and their bytes |
| `JobCompletion.TransferCompletes` | pkg/job.go:61-100 | Over any such run the detail is DONE exactly when all its segments have ended, and then has the size of the file |
| `JobCompletion.CreatedStored` | api/controllers/pkg.go:688-745 | Once a package is created, the records of its files and segments stay through every later event, and with its job a transfer can be taken up |
| `JobCompletion.UploadedFileCompletes` | pkg/job.go:348-466 | From the creation of a package whose file was cut by the unpacker, through a task with all its segments, to the reports: the detail counts the ended segments and is DONE with the size of the file exactly when all have ended |
| `JobCompletion.JobFinishesWithLastSegment` | pkg/job.go:752-786 | The report that ends a further segment counts the job as finished if and only if it ends the last segment of the last open file, if no DONE detail was hit since the job was cached |
| `JobCompletion.GeneratedFits` | pkg/pkg.go:82-94 | Every generated segment table has the sizes and distinct ids these results ask for |
| `JobHistory.StateFollowsEvents` | pkg/job.go:61-100 | In every reachable state a detail's state is what the latest event that sets it has set: IDLE from scratch, what is reported until all segments have ended, PAUSE after a segment or a paused task, DONE with the last segment or a request without segments, PAUSE for a transfer cut off by a restart |
| `JobHistory.NumbersFollowEvents` | pkg/job.go:61-100 | So are its finished size and finished segments: none from scratch, the file's after a request without segments, what the receiver tells, and up to the file's with each segment that ends |
| `JobHistory.TransferringStored` | pkg/job.go:415-466 | Over any run, a report that ends no segment stores its state in a detail not all of whose segments have ended, and moves nothing else |
| `JobHistory.DoingExactly` | api/controllers/transfer.go:293-300 | A detail is DOING if and only if a report said so before all its segments had ended and no later event set its state |
| `JobHistory.StartedExactly` | pkg/job.go:360-370 | A detail has a start time if and only if its file is empty, or a task of it or a request without segments came since its job was last created |
| `JobRows.RowFollowsEvents` | pkg/job.go:739-786 | In every reachable state an event does to a job's row exactly this: its package's deletion marks it; touched with no more details open than hits, or at a restart, it is counted as finished once and DONE; the first task of an idle job makes it DOING |
| `JobRows.DoneExactly` | pkg/models/job.go:296-301 | A job is DONE if and only if it was ever counted as finished |
| `JobRows.IdleExactly` | pkg/job.go:373-380 | A job is idle if and only if it was not counted as finished and no task of it came since it was created |
| `JobRows.MarkedExactly` | api/controllers/pkg.go:931-953 | An upload is soft-deleted if and only if its package was deleted and it was not deleted itself after that |
| `JobRows.DeletesExactly` | pkg/job.go:265-287 | A deletion is recorded if and only if the job was deleted, or its package while it was a download, and the user was not told for the last time and the process not restarted since |
| `JobOccasions.QueuedOnOccasion` | notify/notify.go:158-212 | Over every run each notification is queued as many times as there were occasions for it: creations of a download, first tasks of an idle download, first finishes of a job, while notifications are on |
| `JobOccasions.EnabledExactly` | notify/notify.go:158-212 | Notifications are on if and only if they were last switched on |
| `JobOccasions.SegFollowsReports` | pkg/job.go:451-460 | The state stored with a segment is that of the latest report on it in an upload, or the one it was created with |
| `TrackIndex.AddedMirrored` | pkg/job.go:479-508 | Tracking keeps user and package indexes mirror images without empty entries, and adds just that job |
| `TrackIndex.DeletedMirrored` | pkg/job.go:545-570 | Untracking does too, and removes just that job |
| `TrackIndex.MirroredHolds` | pkg/job.go:479-570 | A user is recorded under a package if and only if the package is recorded under the user, for uploads and downloads apart |
| `TrackIndex.CountsAgree` | pkg/job.go:797-806 | The tracked jobs of a type counted by package and by user come to the same number, that of the tracked jobs |
| `JobManagement.JobManager.constructor` | pkg/job.go:138-148 | A new manager is in the initial state |
| `JobManagement.JobDetail.Reset` | pkg/models/job.go:461-469 | The detail's row becomes that of a reset detail |
| `JobManagement.JobDetail.Start` | pkg/job.go:362-371 | A task restarts the detail if it never started or carries all segments, resets it only if the file has bytes, and asks to be saved if and only if it restarts it |
| `JobManagement.JobDetail.Update` | pkg/job.go:61-100 | A report leaves the row of the progress function, with both limits and the DONE rule |
| `JobManagement.NotifyManage.OnJobCreate` | notify/notify.go:107-130 | Queues the receiver's notification for a download while enabled |
| `JobManagement.NotifyManage.OnJobStart` | notify/notify.go:132-156 | Queues the sender's notification for a download while enabled |
| `JobManagement.NotifyManage.OnJobFinish` | notify/notify.go:158-212 | Queues the finish notifications the first time a job finishes |
| `JobManagement.JobManager.GetJob` | pkg/job.go:289-328 | Returns the cached object, or reads the job and caches it if it is unfinished with a fresh count; the state is that of loading |
| `JobManagement.JobManager.GetJobDetail` | pkg/job.go:330-346 | Returns the detail's object, shared with the cached job if there is one, with its stored row |
| `JobManagement.JobManager.AddTrack` | pkg/job.go:479-508 | The tracked jobs grow by one |
| `JobManagement.JobManager.RemoveTrack` | pkg/job.go:545-570 | The tracked jobs shrink by one |
| `JobManagement.JobManager.CascadeTracks` | pkg/job.go:521-542 | The loop over uploaders that deletes while it iterates does what the cascade does for one order of the map |
| `JobManagement.JobManager.DelTrack` | pkg/job.go:510-543 | Leaves the untracked state for an order that lists the uploaders once each |
| `JobManagement.JobManager.IsJobFinished` | pkg/job.go:739-750 | Tells by the counter of a cached job, and by the database otherwise |
| `JobManagement.JobManager.ProcessJob` | pkg/job.go:752-786 | Counts a finished job, evicts it, untracks it and announces it; leaves any other alone |
| `JobManagement.JobManager.AddTask` | pkg/job.go:348-381 | Leaves the state in which the task was taken up: detail restarted or not, job DOING and announced if it was idle |
| `JobManagement.JobManager.DelTask` | pkg/job.go:383-413 | A detail that is not DONE becomes PAUSE when its task went away in that state |
| `JobManagement.JobManager.TaskStateNotify` | pkg/job.go:415-466 | Leaves the state of a report: detail, counter, segment and, if it looks finished, the job |
| `JobManagement.JobManager.ClaimFile` | api/controllers/transfer.go:161-182 | Leaves the state of a request without segments |
| `JobManagement.JobManager.UpdateJobDetailProcess` | pkg/job.go:828-837 | Stores the receiver's own progress in the detail |
| `JobManagement.JobManager.CreateJob` | pkg/job.go:150-262 | Leaves the created or re-created job with its tracks and notification, through the loops that insert or reset the details and track the uploads |
| `JobManagement.JobManager.CreatePkg` | api/controllers/pkg.go:688-749 | Stores the package with its 64-bit size sum, its files and segments |
| `JobManagement.JobManager.DeleteJob` | pkg/job.go:265-287 | Removes job and details, untracks, evicts and records the deletion |
| `JobManagement.JobManager.DeletePkg` | api/controllers/pkg.go:931-953 | Leaves the state of a deleted package for one order of its downloads |
| `JobManagement.JobManager.LoadTracks` | pkg/job.go:637-659 | The tracked jobs become those recomputed from the database |
| `JobManagement.JobManager.ClearTracks` | pkg/job.go:808-816 | Nothing is tracked and no deletion is recorded |
| `JobManagement.JobManager.AddTrackOfDelete` | pkg/job.go:691-710 | The recorded deletions grow by one |
| `JobManagement.JobManager.GetTrackOfDelete` | pkg/job.go:712-737 | Lists a user's recorded deletions once each, and forgets exactly those if asked to |
| `JobManagement.JobManager.GetUnFinishedJobCount` | pkg/job.go:797-806 | Summing over the package index gives the numbers of tracked uploads and downloads |
| `JobManagement.JobManager.GetTransferedSize` | pkg/models/job.go:303-315 | The loop computes, modulo 2^64, the finished sizes of the DONE details |
| `RoundRobin.LeastRecentlyUsed` | transfer/task/roundrobin.go:21-45 | With units put once, a request is served iff some queued unit is acceptable, by the acceptable unit whose last use is oldest; otherwise the queue is unchanged |
| `RoundRobin.WaitIsBounded` | transfer/task/roundrobin.go:21-69 | A unit with p units ahead that every request accepts is served within p + 1 requests, whatever else is put or popped |
| `RoundRobin.QueueByLastUse` | transfer/task/roundrobin.go:21-69 | After any such run the queue has no unit twice and stands in the order of last use |
| `RoundRobin.GetKeeps` | transfer/task/roundrobin.go:21-45 | Serving conserves the units |
| `RoundRobin.PopKeeps` | transfer/task/roundrobin.go:56-69 | Popping removes the unit and no other |
| `RoundRobin.RoundRobinScheduler.Get` | transfer/task/roundrobin.go:21-45 | The scan returns the first accepted unit and moves it to the back, or nothing |
| `RoundRobin.RoundRobinScheduler.Put` | transfer/task/roundrobin.go:47-54 | The unit joins at the back |
| `RoundRobin.RoundRobinScheduler.Pop` | transfer/task/roundrobin.go:56-69 | The scan removes the first occurrence |
| `RoundRobin.RoundRobinScheduler.NumUnits` | transfer/task/roundrobin.go:71-75 | The length of the queue |
| `RoundRobin.RoundRobinScheduler.Reset` | transfer/task/roundrobin.go:77-81 | Empties the queue |
| `ZoneIndex.QueuesFollowNodes` | transfer/task/nas_rr.go:25-83 | Over all runs with fresh logins zone z has a queue exactly when an online node is in z, holding those nodes once each, and the upload queue holds the online nodes once each |
| `ZoneIndex.LoginAgreesExactly` | transfer/node.go:84-98 | A login keeps the queues in agreement if and only if its node id was not online and its connection had not logged in before, under this id or another |
| `ZoneIndex.EnteredTwice` | transfer/node.go:317-367 | A second login on one connection breaks the agreement |
| `ZoneIndex.OldConnectionLogsNewOut` | transfer/ws_server.go:77-83 | After such a login the end of the old connection takes the new one offline, while the old one stays in the upload queue |
| `ZoneIndex.ZoneServesOnline` | transfer/task/nas_rr.go:85-99 | A dispatch to z succeeds if and only if an online node is in z, and returns one |
| `ZoneIndex.UploadServesOnline` | transfer/task/rr_upload.go:37-49 | An upload finds a node if and only if some online node passes its filter, and then such a node |
| `ZoneIndex.ReloadAgrees` | transfer/node.go:568-593 | Moving a node between zones, to or from none, keeps the agreement |
| `ZoneHistory.OnlineExactly` | transfer/node.go:84-111 | Over every such run a node is online if and only if it logged in and not out since, and it is known by the connection of that login |
| `ZoneHistory.ZoneExactly` | transfer/node.go:142-151 | A node that is online is in the zone of its latest login or reload |
| `ZoneHistory.UploadsInTurn` | transfer/task/rr_upload.go:20-49 | The upload queue is that of a round robin into which nodes are put and from which they are popped as they log in and out |
| `ZoneHistory.DownloadsInTurn` | transfer/task/nas_rr.go:25-99 | The queue of each zone is one too, with the nodes that change zones |
| `ZoneHistory.UploadsLeastRecentlyUsed` | transfer/task/rr_upload.go:20-49 | An upload gets, of the nodes with room, the one whose last turn or arrival is the longest ago |
| `ZoneHistory.DownloadsLeastRecentlyUsed` | transfer/task/nas_rr.go:85-99 | A download from a zone gets the node of the zone whose last turn or arrival is the longest ago |
| `Nodes.Node.AddTaskCnt` | transfer/node.go:552-566 | Adds to the count of one type, clamped at zero, and leaves the other |
| `Nodes.RoundRobinUploadScheduler.DispatchUpload` | transfer/task/rr_upload.go:20-49 | Serves the first node whose free storage is at least the size |
| `Nodes.NasRoundRobinScheduler.ZoneAddNode` | transfer/task/nas_rr.go:35-45 | The zone's queue, created if need be, gains the node |
| `Nodes.NasRoundRobinScheduler.ZoneDelNode` | transfer/task/nas_rr.go:47-58 | The zone's queue loses the node, and is dropped when it runs empty |
| `Nodes.NasRoundRobinScheduler.AddNode` | transfer/task/nas_rr.go:25-33 | A node without zone is ignored |
| `Nodes.NasRoundRobinScheduler.DelNode` | transfer/task/nas_rr.go:60-68 | A node without zone is ignored |
| `Nodes.NasRoundRobinScheduler.NodeZoneChange` | transfer/task/nas_rr.go:74-83 | The node leaves the old zone's queue and joins the new one's |
| `Nodes.NasRoundRobinScheduler.Dispatch` | transfer/task/nas_rr.go:85-99 | Serves the zone's first node, if the zone has a queue |
| `Nodes.NodeManager.AddNode` | transfer/node.go:84-98 | The id map and both observers' queues take the node in, and a connection that was there under the same id is closed, no other |
| `Nodes.NodeManager.DelNode` | transfer/node.go:100-111 | They drop the node under the id, if it is online |
| `Nodes.NodeManager.ReloadNodeModel` | transfer/node.go:142-151 | A changed zone is passed to the observers and stored in the node |
| `Dispatch.OneNodePerFileInFidMode` | transfer/task/default_scheduler.go:38-70 | In fid mode, with files stored on the node that took their first segment, all segments of a file go to one node over every run, across expiry, nodes going offline and shortage of space |
| `Dispatch.OneNodePerFileExactly` | transfer/task/default_scheduler.go:38-70 | In either mode they do if and only if no upload finds a live affinity with room to a node other than the file's |
| `Dispatch.PidModeCanSplitAFile` | transfer/task/restrict.go:99-121 | There is a run in pid mode that splits a file between two nodes |
| `Dispatch.FirstChoiceKeepsPackage` | transfer/task/restrict.go:99-153 | In pid mode the node that takes a first upload gets every further upload of the package while it stays online with room and uses are no more than five minutes apart |
| `Dispatch.PackageSticks` | transfer/task/restrict.go:177-219 | The same from any state with an affinity, counted from its last use |
| `DispatchChoice.ChosenByPid` | transfer/task/restrict.go:99-121 | In pid mode a live affinity to an online node decides if and only if that node has more room than is left of the package; else the storage does; else the first queued node with at least that room |
| `DispatchChoice.ChosenByFid` | transfer/task/restrict.go:99-121 | The same in fid mode for the file and its size |
| `DispatchChoice.ChosenHasRoom` | transfer/task/default_scheduler.go:38-70 | A node chosen for a file without storage has room for what is left of the package, or for the file |
| `DispatchChoice.UploadFindsRoom` | transfer/task/default_scheduler.go:38-70 | Over every run of fresh logins, an upload of a file without storage finds a node if and only if an online node has room |
| `DispatchChoice.StorageServesOnline` | transfer/task/default_scheduler.go:72-97 | Over every such run, a file on a node is found if and only if the node is online, one in a zone if and only if a node of the zone is, and then on such a node; no other storage is found |
| `DispatchChoice.QueuesTurn` | transfer/task/default_scheduler.go:38-70 | The queue that gave the node has it at the back then; an affinity moves no queue, and no other queue moves |
| `DispatchChoice.StepAffinities` | transfer/task/restrict.go:177-219 | A placed upload sets its affinity for five minutes; another goes exactly if an upload finds it expired, and only a use makes it younger |
| `DispatchChoice.AffinityFollowsUses` | transfer/task/restrict.go:124-153 | Over every run an affinity names the node of the last upload placed for its package or file, and is as old as its last use since |
| `DispatchChoice.DecidesWhileFresh` | transfer/task/restrict.go:99-121 | Over every run an affinity decides an upload only within five minutes of its last use, and for that node |
| `Schedulers.Resource.Update` | transfer/task/restrict.go:161-163 | The time of the last use is now |
| `Schedulers.XidResource.Get` | transfer/task/restrict.go:204-207 | The resource under the id, or none |
| `Schedulers.XidResource.Update` | transfer/task/restrict.go:193-202 | Refreshes the resource only if it names the same node |
| `Schedulers.XidResource.DelExpired` | transfer/task/restrict.go:213-219 | The loop that deletes while it iterates leaves exactly the resources not older than their expiry |
| `Schedulers.XidResource.Add` | transfer/task/restrict.go:177-191 | Refreshes, drops the expired, and sets the resource, unless the node id is empty |
| `Schedulers.RestrictUploadScheduler.DispatchUpload` | transfer/task/restrict.go:99-121 | Picks the node of a live affinity if it is online with more free storage than needed, and refreshes it exactly then |
| `Schedulers.RestrictUploadScheduler.AddTask` | transfer/task/restrict.go:124-134 | An upload task sets the affinity of its package or file |
| `Schedulers.RestrictUploadScheduler.TaskStateNotify` | transfer/task/restrict.go:140-153 | A report of an upload task refreshes it |
| `Schedulers.DefaultScheduler.DispatchDownload` | transfer/task/default_scheduler.go:72-97 | By scheme: the host's node, the zone's next node, or none |
| `Schedulers.DefaultScheduler.DispatchUpload` | transfer/task/default_scheduler.go:38-70 | Affinity first, then the file's storage, and the round robin only for a file without storage; what happens to the affinity and to the queues |
| `Schedulers.DefaultScheduler.ChosenFits` | transfer/task/rr_upload.go:20-49 | The node object chosen for a file without storage has free storage for it |
| `Segmentation.SizesSum` | pkg/pkg.go:82-94 | The segment sizes sum to the file size |
| `Segmentation.SizesShape` | pkg/pkg.go:82-94 | All segments but the last have one size and the last is between 1 and that size |
| `Segmentation.PerSizeAtLeastMin` | pkg/pkg.go:73-81 | With a product in range the segment size is at least the configured minimum |
| `Segmentation.CuttingEndsExactly` | pkg/pkg.go:66-96 | For any accepted numbers, overflow included, after some number of rounds nothing is left if and only if the file is not one that is large, not divisible and shorter than the number of segments less one |
| `Segmentation.CuttingCanRunForever` | pkg/pkg.go:113-123 | For an accepted configuration and a file of one byte, that byte is left after every number of rounds |
| `Segmentation.RoundsCutSizes` | pkg/pkg.go:82-94 | With a positive size nothing is left exactly from as many rounds on as there are segments, and the rounds cut these one after the other |
| `Segmentation.CapExactly` | pkg/pkg.go:66-96 | Exactly which files are cut into no more than the configured number of segments |
| `Segmentation.ConfigCapsExactly` | pkg/pkg.go:113-123 | Exactly which configurations keep every 64-bit file within that number |
| `Unpacker.DefaultUnpacker.constructor` | pkg/pkg.go:44-51 | Takes any numbers; the threshold is their product modulo 2^64 |
| `Unpacker.DefaultUnpacker.Config` | pkg/pkg.go:113-123 | Refuses zero and then changes nothing |
| `Unpacker.DefaultUnpacker.GenerateSegs` | pkg/pkg.go:66-96 | For every configuration, what the loop has produced and what it has left after a number of rounds; the division by zero without a segment number; nothing for an empty or irregular file |
| `Unpacker.GeneratedInTheEnd` | pkg/pkg.go:66-96 | Once nothing is left the segments are the whole segment table of the file |
| `Names.PidRecoveredExactly` | pkg/pkg.go:58-64 | The package id is read back from a file id if and only if it has 22 characters |
| `Names.PidReadExactly` | pkg/pkg.go:98-103 | A package id is read from a file id if and only if it has 24 characters, and is then its first 22 |
| `Names.FidExactly` | pkg/pkg.go:58-64 | A package has at most 99 files; a file id is the package id and the two digits of the file's number |
| `Names.SidExactly` | pkg/pkg.go:88-90 | A segment id is the file id and the digits of the segment's number, eight at least |
| `Names.FidsDistinct` | pkg/pkg.go:58-64 | A file id determines package and number |
| `Names.SidsDistinct` | pkg/pkg.go:88-90 | Segment ids of files with ids of one length determine file and number |
| `Names.RebuildDescribed` | api/controllers/transfer.go:396-430 | File size, segment count, first segment size and start number rebuild the whole segment table |
| `Names.HashJobDistinct` | pkg/job.go:33-42 | Job ids of users with ids of one length determine user, package and type |
| `Names.HashJobCollidesExactly` | pkg/job.go:33-42 | For ids of different lengths some packages and types collide if and only if the longer id is the shorter one followed by "_U" or "_D", alone or with a further "_" |
| `Names.DownloadsCollideExactly` | pkg/pkg.go:53-56 | For downloads of packages with generated ids they do if and only if it goes on with "_D" in that way |
| `Names.HashJobCanCollide` | pkg/job.go:33-42 | Two downloads of packages made in the same second by two owners have one job id |
| `TaskTable.CountsKeptExactly` | transfer/task/task.go:289-388 | A step keeps every registered node's counts equal to its live tasks if and only if it overwrites no live task, registers no node that has live tasks, and revives no task of a registered node, save one that ends at once at count zero |
| `TaskTable.CountsAreExact` | transfer/node.go:552-566 | Over every such run the counts are exact, and a live task of a registered node has its count at one or more, so the clamp never takes anything away |
| `TaskTable.SeenKeptExactly` | transfer/task/task.go:327-388 | A step keeps the sightings straight if and only if it adds no id twice and revives no task |
| `TaskTable.SeenOnce` | transfer/task/task.go:468-516 | Over every such run each observer sees a task added once and deleted at most once, whatever timeouts and end reports delete; the live tasks are those added and not deleted |
| `TaskTable.TaskCanBeDeletedTwice` | transfer/task/task.go:182-212 | In the run in which a task times out, is stored as paused, and its end is reported late, the observers see it deleted twice and the node counts no task while one is live |
| `TaskHistory.TaskFollowsReports` | transfer/task/task.go:468-516 | Over every run a task is live if and only if it came in and nothing ended it since; its state is the one reported last since then, its traffic the last positive total, or what it came in with |
| `TaskHistory.RegisteredExactly` | transfer/node.go:84-111 | Counts are kept for exactly the nodes that registered and are not gone |
| `TaskHistory.ObserversTold` | transfer/task/task.go:289-388 | Every observer is told, in order, of each task added, of each task that ends with the state in which it went, PAUSE for a transfer that timed out, and of each report about a segment with its task; and of nothing else |
| `TaskManagement.Task.InputBitrate` | transfer/task/task.go:176-180 | Writes the sample into its slot and counts it in 32 bits |
| `TaskManagement.Task.Finish` | transfer/task/task.go:358-362 | Takes the statistics of the window of latest samples |
| `TaskManagement.TaskManager.AddTask` | transfer/task/task.go:289-325 | Counts the task at its node, enters it and tells every observer |
| `TaskManagement.TaskManager.GetTask` | transfer/task/task.go:327-345 | Looks an unknown id up in the database and keeps what it finds, or nothing, in the table |
| `TaskManagement.TaskManager.DelTask` | transfer/task/task.go:347-388 | Removes the entry; a live task is counted down and every observer told |
| `TaskManagement.TaskManager.Timeout` | transfer/task/task.go:182-212 | A DOING task becomes PAUSE and is deleted |
| `TaskManagement.TaskManager.HandleTaskState` | transfer/task/task.go:468-516 | Refreshes the task, then either takes the sample and tells the observers, or deletes the task |
| `Bitrates.WindowIsLatest` | transfer/task/task.go:176-180 | After any number of samples the slice is, as a multiset, the latest ones: 1000, or as many as the 32-bit counter shows if fewer |
| `Bitrates.WindowIsFullExactly` | transfer/task/task.go:358-362 | It is the last 1000 samples, or all of fewer, if and only if the counter has not wrapped around to less than 1000 |
| `Bitrates.BitrateStatistics` | transfer/task/task.go:655-669 | The loop returns the running minimum, the 64-bit sum over the count, and the maximum |
| `Bitrates.MinExactly` | transfer/task/task.go:662-664 | The running minimum is the minimum if and only if no sample is zero or the last one is |
| `Bitrates.MinCanBeWrong` | transfer/task/task.go:662-664 | Of the samples 0 and 5 the running minimum is 5 |
| `Bitrates.AverageExactly` | transfer/task/task.go:659-669 | The average is the rounded-down mean if and only if the sum does not overflow |
| `Bitrates.StatisticsInOrder` | transfer/task/task.go:655-669 | Of positive samples whose sum fits, the minimum is the minimum and minimum, average and maximum are in order |
| `Correlation.OwnResponse` | transfer/node.go:470-504 | For every interleaving, also while the handler waits, a caller only returns a response that was handled and carries its own sequence number |
| `Correlation.PendingIsUnreturned` | transfer/node.go:439-451 | While the connection is open the pending requests are exactly those of the callers that have not returned |
| `Correlation.NothingLost` | transfer/node.go:476-504 | A caller always finds its request, and a response that arrived between sending and waiting is the one it then receives and returns |
| `Replies.ReturnsWhatItRead` | transfer/node.go:470-504 | Over every run a caller that has returned has a response if and only if it read one, and it is the one handled last under its number before that |
| `Replies.StandsExactly` | transfer/node.go:453-504 | Over every run the last step a caller took says where it stands: sending fails exactly on a closed connection, a lookup finds its own request, receiving fails exactly without an unread response, clearing returns what was read |
| `Correlation.BlocksExactly` | transfer/node.go:279-286 | In every reachable state, handling a response makes the handler wait if and only if its request is pending, was there at no close, and an earlier response to it was announced that its caller has not received since |
| `Correlation.FullExactly` | transfer/node.go:487-493 | Over every run a channel is full if and only if a response was announced in it that its caller has not received |
| `Correlation.HandlerNeverBlocks` | transfer/node.go:279-286 | Over every run in which each request is answered at most once the handler never waits |
| `Correlation.StuckForever` | transfer/node.go:280-285 | A handler waiting for a caller that is not at the channel keeps the lock whatever is done from then on |
| `Correlation.WaitingReleases` | transfer/node.go:487-493 | A caller at the channel lets the handler go on by receiving |
| `Correlation.HandlerCanGetStuck` | transfer/node.go:279-286 | In the run in which a response comes twice before its caller looks it up, the handler gets stuck |
| `Correlation.ShutExactly` | transfer/node.go:506-511 | The channel of a pending request is closed if and only if the request was issued before some close |
| `Correlation.CloseCrashesExactly` | transfer/node.go:506-511 | Closing panics if and only if a request issued before an earlier close is still pending |
| `Correlation.AnnounceCrashesExactly` | transfer/node.go:280-285 | Announcing a response panics if and only if its request was issued before a close |
| `Correlation.SecondCloseCanCrash` | transfer/ws_server.go:77-83 | The run in which a caller waits while its connection is closed twice panics |
| `Correlation.FewRequestsNoReuse` | transfer/node.go:444-448 | The first 2^32 requests get different sequence numbers, so none in use is given out again |
| `Correlation.NumberedInOrder` | transfer/node.go:444-448 | Requests are numbered in the order in which they are issued, modulo 2^32 |
| `Correlation.StepFits` | transfer/node.go:439-531 | Every step of caller, handler and closing keeps the invariant these results rest on |
| `Connections.Connection.Issue` | transfer/node.go:444-448 | Gives out the next number and enters a pending request with an empty channel |
| `Connections.Connection.SendMessage` | transfer/node.go:453-467 | Fails if and only if the connection is closed |
| `Connections.Connection.LookupPending` | transfer/node.go:476-483 | Finds the pending request under the number |
| `Connections.Connection.StoreResponse` | transfer/node.go:280-282 | Stores the response of a pending request, or ignores an unknown number |
| `Connections.Connection.AnnounceResponse` | transfer/node.go:283-285 | Fills the channel and gives the lock back, or panics if the channel is closed |
| `Connections.Connection.Receive` | transfer/node.go:488-492 | Takes the item; a closed channel without one fails the caller |
| `Connections.Connection.Read` | transfer/node.go:493-493 | Reads the stored response |
| `Connections.Connection.Clear` | transfer/node.go:499-504 | Removes the pending entry, and the caller returns what it has read |
| `Connections.Connection.CloseChannels` | transfer/node.go:507-511 | The loop closes the channels of all pending requests and no other, or panics at one that is closed |
| `Connections.Connection.PendingApart` | transfer/node.go:507-511 | No two entries share a request, so one call closes no channel twice |
| `Connections.Connection.MarkClosed` | transfer/node.go:513-518 | From then on sending fails |

## Left out

- HTTP controllers but for the fragments named above, JSON, routing, the websocket, redis and mail: I/O around this core.
- SQL, sessions and the record cache of the ORM: tables are maps, and a failing database is not modelled.
- `JobManagement.JobManager.ProcessJob`: the delays of the removal of a finished job and of the cache write are zero, so that a job is removed in the step that finishes it.
- Concurrent calls into the job manager: each operation is one step. Of the request protocol every section under a lock is a step of its own, and of `SendRequestSync` the sections are separate methods, as other callers run between them.
- The Err307Times counter that lets an upload be requested again while it is DOING, and the permission and bitrate checks around it.
- `JobAgreement.RestartInvisibleExactly`: the synchronisation of job states at startup is a function of the tables, without objects; only LoadTracks has a method.
- `JobManagement.JobManager.GetJobDetail`: for a file id that the job does not have the program leaves a nil entry in the cached map; here the map stays as it is.
- `JobManagement.JobManager.TaskStateNotify`: the byte count of a segment without a database row is taken from the report; the helper that computes it lies outside the repository. The runtime map of segments is not kept.
- `JobManagement.JobManager.AddTrack`: the Track objects of both indexes are values in the maps, so sharing one between entries is not modelled; the program never does.
- The order of notifications and of database writes inside one operation, beyond the final queue and tables.
- `JobNotices.NotifiedAtMostOnce`: about queued notifications; the delivery workers and retries are not modelled.
- `Names.HashJobDistinct`: jobs are keyed by user, package and type everywhere else, which is the program's string id where that is injective.
- `Names.DownloadsCollideExactly`: the clock is a parameter of the generated package id.
- `Dispatch.OneNodePerFileInFidMode`: dispatch, the new task and the stored storage url are one step, so two first segments of a file dispatched at once are not covered. Urls are parsed outside the model.
- The unrestricted mode of the restrict scheduler, in which the program has no id function for tasks, and changing the mode at run time.
- `Nodes.NodeManager.ReloadNodeModel`: for listed node ids; reloading all nodes is left out, and the configuration message to the node is not sent. The two observers are those the default scheduler registers.
- `Nodes.RoundRobinUploadScheduler.DispatchUpload`: the filter gets the free storage of the nodes as a map taken at the call instead of reading the nodes.
- `TaskManagement.TaskManager.AddTask`: the observers are recorders fixed at construction; the two real ones are modelled as the job manager and the restrict scheduler. Timers and the database columns of a task are left out, but for the state.
- `Nodes.NodeManager.AddNode`: the id of a node object is fixed, so a second login of one object under another id is covered by `ZoneIndex` only; the pending requests of the closed connection are those of `Connections`; the two are not one object here.
- `Completion.FileCompletes`: about one detail; over runs of the manager it is `JobCompletion.TransferFollowsReports`.
- `Unpacker.DefaultUnpacker.GenerateSegs`: a loop that does not end is shown by its rounds, as a method here has to end.
- `Bitrates.BitrateStatistics`: without the floating-point standard deviation.
- Stopping tasks, statistics, node storage totals, job filters and pagination: easy or unused members.
