/** The toast texts the client components show. */
module Messages {
  const UpdatedTask := "Successfully updated task"
  const CreatedTask := "Successfully created task"
  const DeletedTask := "Successfully deleted task"
  const InvalidTask := "Task name and status must not empty"
  const SessionExpired := "Session expired, you will be redirected to login page"
  const AccessDenied := "Access denied due to insufficient permissions"
  const TaskNotFound := "Task not found"
  const UserNotFound := "User not found"
  const ServerFailure := "Something is wrong with the server, please try again"
}
