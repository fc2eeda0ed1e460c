/** The e-mail notifications of backend/app/services/notification_service.py.
    SMTP delivery is not modelled: a message handed to `_send_email` by a
    configured service is recorded in an outbox; delivery errors are logged
    and swallowed by the source, so they change nothing the model sees. The
    HTML layout is reduced to the subject and the labelled detail lines. */
module Notifications {
  import opened Wrappers
  import opened Text
  import opened Models

  /** The `notifications` section of the configuration. */
  datatype NotificationConfig = NotificationConfig(
    enabled: bool,
    recipientEmail: Option<string>,
    onAwaitsReview: bool,
    onApplied: bool,
    onError: bool)

  /** The SMTP and application settings. */
  datatype SmtpSettings = SmtpSettings(
    host: Option<string>,
    user: Option<string>,
    password: Option<string>,
    senderName: Option<string>,
    appName: string)

  /** A message: its subject and the labelled lines of its detail list. */
  datatype Mail = Mail(subject: string, details: seq<(string, string)>)

  /** Python truthiness of an optional string. */
  predicate Filled(s: Option<string>) {
    s.Some? && s.value != ""
  }

  /** An optional value as an f-string prints it. */
  function Shown(s: Option<string>): string {
    if s.None? then "None" else s.value
  }

  /** `is_configured`: every setting the sender needs is present and
      notifications are enabled. */
  predicate IsConfigured(config: NotificationConfig, smtp: SmtpSettings) {
    config.enabled && Filled(config.recipientEmail) && Filled(smtp.host)
    && Filled(smtp.user) && Filled(smtp.password) && Filled(smtp.senderName)
  }

  function Subject(task: AgentTask, what: string): string {
    "Task #" + IntToString(task.id) + " (" + task.pluginId + ") " + what
  }

  /** The message `notify_task_status_change` composes for the task, if its
      status is one that notifies and the matching flag is set. The
      comparison is on statuses (see README on the missing `enum` import). */
  function Compose(task: AgentTask, config: NotificationConfig): (r: Option<Mail>)
  {
    if task.status == AwaitingReview && config.onAwaitsReview then
      Some(Mail(Subject(task, "Requires Review"),
                [("Task ID", IntToString(task.id)), ("Plugin", task.pluginId), ("Prompt", task.prompt),
                 ("Test Status", TestStatusValue(task.testStatus))]))
    else if task.status == Applied && config.onApplied then
      Some(Mail(Subject(task, "Successfully Applied"),
                [("Task ID", IntToString(task.id)), ("Plugin", task.pluginId)]
                + (if Filled(task.commitHash) then [("Commit Hash", task.commitHash.value)] else [])))
    else if task.status == Error && config.onError then
      Some(Mail(Subject(task, "Encountered an Error"),
                [("Task ID", IntToString(task.id)), ("Plugin", task.pluginId), ("Prompt", task.prompt),
                 ("Error Message", Shown(task.errorMessage))]))
    else None
  }

  /** A message goes out only for a review, an applied change or an error,
      each behind its own flag, and the subject says which. */
  lemma ComposeDecision(task: AgentTask, config: NotificationConfig)
    ensures Compose(task, config).Some? <==>
      (task.status == AwaitingReview && config.onAwaitsReview)
      || (task.status == Applied && config.onApplied)
      || (task.status == Error && config.onError)
    ensures Compose(task, config).Some? ==>
      Compose(task, config).value.subject ==
        Subject(task, if task.status == AwaitingReview then "Requires Review"
                      else if task.status == Applied then "Successfully Applied"
                      else "Encountered an Error")
  {
  }

  /** The applied message lists the commit hash exactly when the task has
      one. */
  lemma CommitHashListed(task: AgentTask, config: NotificationConfig)
    requires task.status == Applied && config.onApplied
    ensures Compose(task, config).Some?
    ensures (exists i :: 0 <= i < |Compose(task, config).value.details|
                         && Compose(task, config).value.details[i].0 == "Commit Hash") <==> Filled(task.commitHash)
    ensures Filled(task.commitHash) ==> ("Commit Hash", task.commitHash.value) in Compose(task, config).value.details
  {
    var d := Compose(task, config).value.details;
    if Filled(task.commitHash) {
      assert d[2] == ("Commit Hash", task.commitHash.value);
    } else {
      assert d == [("Task ID", IntToString(task.id)), ("Plugin", task.pluginId)];
    }
  }

  const EnumNameError := Exc(NameError, "name 'enum' is not defined")

  /** `notify_task_status_change` as written: the status test names
      `enum`, which the module never imports, so a configured and enabled
      service raises NameError before it composes anything, and no message
      is ever sent; an unconfigured or disabled one returns quietly. */
  function NotifyAsWritten(isConfigured: bool, config: NotificationConfig, task: AgentTask): (r: Result<seq<Mail>>)
    ensures r.Raise? <==> isConfigured && config.enabled
    ensures r.Raise? ==> r.exc == EnumNameError
    ensures r.Ok? ==> r.value == []
  {
    if !isConfigured || !config.enabled then Ok([])
    else Raise(EnumNameError)
  }

  class NotificationService {
    const config: NotificationConfig
    const smtp: SmtpSettings
    /** `self.is_configured`, computed once at construction. */
    const isConfigured: bool
    /** The messages handed to the SMTP server, oldest first. */
    var outbox: seq<Mail>

    constructor (config: NotificationConfig, smtp: SmtpSettings)
      ensures this.config == config && this.smtp == smtp
      ensures isConfigured == IsConfigured(config, smtp) && outbox == []
    {
      this.config := config;
      this.smtp := smtp;
      isConfigured := IsConfigured(config, smtp);
      outbox := [];
    }

    /** `_send_email`: nothing without a configuration; otherwise the
        subject gets the application name in brackets. */
    method SendEmail(subject: string, details: seq<(string, string)>)
      modifies this
      ensures isConfigured ==> outbox == old(outbox) + [Mail("[" + smtp.appName + "] " + subject, details)]
      ensures !isConfigured ==> outbox == old(outbox)
    {
      if !isConfigured {
        return;
      }
      outbox := outbox + [Mail("[" + smtp.appName + "] " + subject, details)];
    }

    /** What `notify_task_status_change` hands to the SMTP server for the
        task: one message when the service is configured and enabled and
        the status notifies, nothing otherwise. */
    function Mailed(task: AgentTask): (r: seq<Mail>)
      ensures |r| <= 1
      ensures |r| == 1 <==> isConfigured && config.enabled && Compose(task, config).Some?
      ensures |r| == 1 ==> r[0] == Mail("[" + smtp.appName + "] " + Compose(task, config).value.subject,
                                        Compose(task, config).value.details)
    {
      var m := Compose(task, config);
      if isConfigured && config.enabled && m.Some? then [Mail("[" + smtp.appName + "] " + m.value.subject, m.value.details)]
      else []
    }

    /** `notify_task_status_change`. */
    method NotifyTaskStatusChange(task: AgentTask)
      modifies this
      ensures outbox == old(outbox) + Mailed(task)
    {
      if !isConfigured || !config.enabled {
        return;
      }
      var m := Compose(task, config);
      if m.Some? {
        SendEmail(m.value.subject, m.value.details);
      }
    }
  }

  /** An ERROR task that the configuration asks to report: as written the
      call raises and nothing is sent, while the intended status test
      sends exactly one message. */
  lemma ErrorMailAsWritten(s: NotificationService, task: AgentTask)
    requires s.isConfigured && s.config.enabled && s.config.onError && task.status == Error
    ensures NotifyAsWritten(s.isConfigured, s.config, task) == Raise(EnumNameError)
    ensures |s.Mailed(task)| == 1
    ensures s.Mailed(task)[0].subject == "[" + s.smtp.appName + "] " + Subject(task, "Encountered an Error")
  {
  }
}
