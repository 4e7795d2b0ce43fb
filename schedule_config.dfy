/**
  The schedule settings record, shared by the configuration loader and the
  scheduler (both config/config.go and models/scheduler.go declare it with the
  same fields).
 */
module ScheduleSettings {
  datatype ScheduleConfig = ScheduleConfig(
    enabled: bool,
    date: string,
    savedFormId: int,
    prepareSeconds: int,
    retryCount: int,
    retryInterval: int)
}
