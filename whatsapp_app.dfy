/** The WhatsApp notifier object (whatsapp.js): its settings record is the
    only state, and each handler replaces it by the transition of the
    WhatsApp module. Whether the network request went through is an input. */
module WhatsAppApp {
  import opened Basics
  import opened Clock
  import opened TaskReminder
  import opened WhatsApp

  class WhatsAppNotifier {
    var settings: Settings

    /** Starts from the stored settings, or the defaults. */
    constructor(stored: Option<Settings>)
      ensures settings == if stored.Some? then stored.value else DefaultSettings()
    {
      settings := if stored.Some? then stored.value else DefaultSettings();
    }

    /** `isEnabled`: notifications go out only once enabled and verified. */
    function IsEnabled(): (on: bool)
      reads this
      ensures on <==> settings.enabled && settings.verified
    {
      WhatsApp.IsEnabled(settings)
    }

    /** `getSettings`: a copy of the settings. */
    function GetSettings(): (s: Settings)
      reads this
      ensures s == settings
    {
      settings
    }

    method ToggleWhatsAppConfig(enabled: bool)
      modifies this
      ensures settings == AfterToggle(old(settings), enabled)
    {
      if !enabled {
        settings := settings.(enabled := false);
      }
    }

    method SaveSettings(enabled: bool, phone: string, apiKey: string) returns (outcome: SaveOutcome)
      modifies this
      ensures outcome == SaveCheck(enabled, phone, apiKey)
      ensures settings == AfterSave(old(settings), enabled, phone, apiKey)
      ensures outcome == Saved ==> settings == Settings(enabled, phone, apiKey, false)
    {
      if enabled && (phone == "" || apiKey == "") {
        return MissingFields;
      }
      if enabled && !ValidatePhoneNumber(phone) {
        return InvalidPhone;
      }
      settings := Settings(enabled, phone, apiKey, false);
      outcome := Saved;
    }

    /** `sendTestMessage` as evidently intended: the test goes out whenever
        phone and key are set, without the `verified` gate, and a delivered
        test marks the settings verified. The code as written goes through
        the gate instead and so never verifies (`WhatsApp.NeverVerified`). */
    method SendTestMessage(delivered: bool) returns (result: Delivery)
      modifies this
      ensures settings == IntendedAfterTest(old(settings), delivered)
      ensures old(settings.phone) == "" || old(settings.apiKey) == "" ==> result == Delivery(false, None)
      ensures old(settings.phone) != "" && old(settings.apiKey) != "" ==>
        result == Delivery(delivered, Some(Request(old(settings.phone), TestMessage, old(settings.apiKey))))
    {
      if settings.phone == "" || settings.apiKey == "" {
        return Delivery(false, None);
      }
      result := Delivery(delivered, Some(Request(settings.phone, TestMessage, settings.apiKey)));
      if delivered {
        settings := settings.(verified := true);
      }
    }

    method SendTaskReminder(task: Task, delivered: bool) returns (result: Delivery)
      requires IsClockText(task.reminderTime)
      ensures result == WhatsApp.SendTaskReminder(settings, task, delivered)
      ensures result.sent ==> WhatsApp.IsEnabled(settings) && delivered
    {
      if !settings.enabled || !settings.verified {
        return Delivery(false, None);
      }
      result := SendMessage(settings, ReminderMessage(task), delivered);
    }
  }
}
